/**
 * `Tara::Archive` (lib/tara/archive.rb): fills in the defaults of its
 * configuration hash, stages the application's sources, executables and gem
 * executables in a temporary package directory, lets the installer bundle
 * and prune the dependencies there, and packs the package into a tarball in
 * the build directory.
 *
 * `ResolveDefaults` is the configuration `Archive.new` leaves behind; the
 * staging operations are functions from the tree to the file operations
 * they perform (`StageOps`), `Staged` is their reference semantics, and the
 * methods of `Archive` run them against a `Host`; `Created` is what
 * `create` does as a whole.
 */
module Archive {
  import opened Errors
  import opened Text
  import opened Paths
  import opened Options
  import opened Hosts
  import opened Shell
  import S = Shim
  import F = Fetcher
  import I = Installer

  // ---------------------------------------------------------------------
  // Configuration

  const DefaultTarget: string := "linux-x86_64"
  const DefaultTravelingRubyVersion: string := "20150210"
  const DefaultFiles: seq<string> := ["lib/**/*.rb"]
  const DefaultExecutables: seq<string> := ["bin/*"]
  const DefaultWithoutGroups: seq<string> := ["development", "test"]
  /** What `archive_name` defaults to after the application's name. */
  const ArchiveSuffix: string := ".tgz"

  /** The string a string-valued option holds. */
  function StrOfValue(v: Value): string {
    if v.Str? then v.s else ""
  }

  /** `v || default`. */
  function Or(v: Value, default: Value): (r: Value)
    ensures Truthy(v) ==> r == v
    ensures !Truthy(v) ==> r == default
  {
    if Truthy(v) then v else default
  }

  /** The options `Archive.new` gives a default, in the order it settles them. */
  const DefaultOrder: seq<Key> := [
    AppDir, AppName, BuildDir, DownloadDir, ArchiveName, Files,
    Executables, GemExecutables, Target, TravelingRubyVersion, WithoutGroups ]

  /**
   * The type the archive's use of option `k` needs when it is set: lists of
   * strings for the globs and groups, `[gem, executable]` pairs for the gem
   * executables, strings for the paths and names the rest are joined,
   * concatenated or interpolated into.
   */
  predicate Fits(k: Key, v: Value) {
    !Truthy(v) ||
    match k
    case Files | Executables | WithoutGroups => v.Strs?
    case GemExecutables => v.Pairs?
    case BundleIgnoreConfig | ShellOption | Metadata | Other(_) => true
    case _ => v.Str?
  }

  /** Every option the archive reads has the type its use requires, when it is set. */
  ghost predicate WellTyped(c: Hash) {
    forall k :: Fits(k, Lookup(c, k))
  }

  /** A configuration `create` can run with: well typed, with every defaulted option set. */
  ghost predicate Resolved(c: Hash) {
    && WellTyped(c)
    && (forall k | 0 <= Line(k) :: Truthy(Lookup(c, k)))
  }

  /** `File.basename(dir)` as an option value. */
  function NameOf(dir: Value): Value { Str(Basename(StrOfValue(dir))) }
  /** `File.join(dir, name)` as an option value. */
  function Within(dir: Value, name: string): Value { Str(FileJoin(StrOfValue(dir), name)) }
  /** `name + suffix` as an option value. */
  function Suffixed(name: Value, suffix: string): Value { Str(StrOfValue(name) + suffix) }

  /**
   * The right-hand side of `@config[k] ||= ...` in `initialize`, evaluated
   * against the hash as the earlier lines left it. Keys without a default
   * line never reach it.
   */
  function DefaultFor(k: Key, h: Hash, pwd: string): Value {
    match k
    case AppDir => Str(pwd)
    case AppName => NameOf(Lookup(h, AppDir))
    case BuildDir => Within(Lookup(h, AppDir), "build")
    case DownloadDir => Within(Lookup(h, BuildDir), "downloads")
    case ArchiveName => Suffixed(Lookup(h, AppName), ArchiveSuffix)
    case Files => Strs(DefaultFiles)
    case Executables => Strs(DefaultExecutables)
    case GemExecutables => Pairs([])
    case Target => Str(DefaultTarget)
    case TravelingRubyVersion => Str(DefaultTravelingRubyVersion)
    case WithoutGroups => Strs(DefaultWithoutGroups)
    case _ => Nil
  }

  /** The right-hand sides of `initialize` for a working directory `pwd`. */
  function Defaults(pwd: string): (Key, Hash) -> Value {
    (k, h) => DefaultFor(k, h, pwd)
  }

  /**
   * The hash after the first `n` `||=` lines of `initialize`, the line for
   * `k` assigning `d(k, h)` to a falsy entry of the hash `h` it finds.
   */
  function Settled(h: Hash, n: nat, d: (Key, Hash) -> Value): Hash
    requires n <= |DefaultOrder|
  {
    if n == 0 then h
    else
      var before := Settled(h, n - 1, d);
      var k := DefaultOrder[n - 1];
      before[k := Or(Lookup(before, k), d(k, before))]
  }

  /** `Archive#initialize`: the eleven `||=` lines in order. */
  function ResolveDefaults(config: Hash, pwd: string): Hash {
    Settled(config, |DefaultOrder|, Defaults(pwd))
  }

  /** Where `initialize` settles `k`: its position in `DefaultOrder`, or -1 for an option it leaves alone. */
  function Line(k: Key): int {
    match k
    case AppDir => 0
    case AppName => 1
    case BuildDir => 2
    case DownloadDir => 3
    case ArchiveName => 4
    case Files => 5
    case Executables => 6
    case GemExecutables => 7
    case Target => 8
    case TravelingRubyVersion => 9
    case WithoutGroups => 10
    case _ => -1
  }

  /** `Line` numbers the entries of `DefaultOrder`. */
  lemma LineOf(i: nat)
    requires i < |DefaultOrder|
    ensures Line(DefaultOrder[i]) == i
  {
  }

  /** The lines before `k`'s own, and all lines for an option without one, leave `k` alone. */
  lemma {:induction false} SettledUntouched(h: Hash, n: nat, d: (Key, Hash) -> Value, k: Key)
    requires n <= |DefaultOrder| && !(0 <= Line(k) < n)
    ensures Lookup(Settled(h, n, d), k) == Lookup(h, k)
  {
    if n > 0 {
      LineOf(n - 1);
      assert DefaultOrder[n - 1] != k;
      assert Lookup(Settled(h, n, d), k) == Lookup(Settled(h, n - 1, d), k);
      SettledUntouched(h, n - 1, d, k);
    }
  }

  /** Once its line has run, an option keeps its value through the later lines. */
  lemma {:induction false} SettledKeeps(h: Hash, n: nat, m: nat, d: (Key, Hash) -> Value, k: Key)
    requires 0 <= Line(k) < n <= m <= |DefaultOrder|
    ensures Lookup(Settled(h, m, d), k) == Lookup(Settled(h, n, d), k)
  {
    if m > n {
      LineOf(m - 1);
      assert DefaultOrder[m - 1] != k;
      assert Lookup(Settled(h, m, d), k) == Lookup(Settled(h, m - 1, d), k);
      SettledKeeps(h, n, m - 1, d, k);
    }
  }

  /**
   * Line `i` keeps its option's value if that is truthy and otherwise sets
   * the default computed from the hash the earlier lines produced.
   */
  lemma SettledLine(h: Hash, i: nat, d: (Key, Hash) -> Value)
    requires i < |DefaultOrder|
    ensures Lookup(Settled(h, i + 1, d), DefaultOrder[i])
         == Or(Lookup(h, DefaultOrder[i]), d(DefaultOrder[i], Settled(h, i, d)))
  {
    LineOf(i);
    SettledUntouched(h, i, d, DefaultOrder[i]);
  }

  /** A default is computed only from options settled on earlier lines. */
  lemma DefaultReadsEarlier(k: Key, h1: Hash, h2: Hash, pwd: string)
    requires forall j :: 0 <= Line(j) < Line(k) ==> Lookup(h1, j) == Lookup(h2, j)
    ensures DefaultFor(k, h1, pwd) == DefaultFor(k, h2, pwd)
  {
    match k
    case AppName => assert Line(AppDir) < Line(k);
    case BuildDir => assert Line(AppDir) < Line(k);
    case DownloadDir => assert Line(BuildDir) < Line(k);
    case ArchiveName => assert Line(AppName) < Line(k);
    case _ =>
  }

  /**
   * Each option `initialize` settles ends up as its own value, if that is
   * truthy, and otherwise as its default computed from the final
   * configuration.
   */
  lemma ResolveLine(config: Hash, pwd: string, k: Key)
    requires 0 <= Line(k)
    ensures var r := ResolveDefaults(config, pwd);
      Lookup(r, k) == Or(Lookup(config, k), DefaultFor(k, r, pwd))
  {
    var r := ResolveDefaults(config, pwd);
    var d := Defaults(pwd);
    var i: nat := Line(k);
    var before := Settled(config, i, d);
    assert DefaultOrder[i] == k by {
      LineOf(i);
      LineInjective(DefaultOrder[i], k);
    }
    assert Lookup(r, k) == Or(Lookup(config, k), d(k, before)) by {
      SettledLine(config, i, d);
      SettledKeeps(config, i + 1, |DefaultOrder|, d, k);
    }
    assert d(k, before) == DefaultFor(k, r, pwd) by {
      forall j | 0 <= Line(j) < Line(k) ensures Lookup(before, j) == Lookup(r, j) {
        SettledKeeps(config, i, |DefaultOrder|, d, j);
      }
      DefaultReadsEarlier(k, before, r, pwd);
    }
  }

  lemma LineInjective(k1: Key, k2: Key)
    requires 0 <= Line(k1) && Line(k1) == Line(k2)
    ensures k1 == k2
  {
  }

  /**
   * `r` is a configuration `initialize` can leave behind from `config`:
   * every option with a line holds its own value, if truthy, or else its
   * default computed from `r` itself.
   */
  ghost predicate SettledFrom(config: Hash, r: Hash, pwd: string) {
    forall k {:trigger Line(k)} | 0 <= Line(k) :: Lookup(r, k) == Or(Lookup(config, k), DefaultFor(k, r, pwd))
  }

  lemma ResolveSettles(config: Hash, pwd: string)
    ensures SettledFrom(config, ResolveDefaults(config, pwd), pwd)
  {
    forall k | 0 <= Line(k)
      ensures Lookup(ResolveDefaults(config, pwd), k)
           == Or(Lookup(config, k), DefaultFor(k, ResolveDefaults(config, pwd), pwd))
    {
      ResolveLine(config, pwd, k);
    }
  }

  /** The defaults of `initialize`, spelled out: the working directory, then names and paths derived from it. */
  lemma SettledPaths(config: Hash, r: Hash, pwd: string)
    requires SettledFrom(config, r, pwd)
    ensures Lookup(r, AppDir) == Or(Lookup(config, AppDir), Str(pwd))
    ensures Lookup(r, AppName) == Or(Lookup(config, AppName), NameOf(Lookup(r, AppDir)))
    ensures Lookup(r, BuildDir) == Or(Lookup(config, BuildDir), Within(Lookup(r, AppDir), "build"))
    ensures Lookup(r, DownloadDir) == Or(Lookup(config, DownloadDir), Within(Lookup(r, BuildDir), "downloads"))
    ensures Lookup(r, ArchiveName) == Or(Lookup(config, ArchiveName), Suffixed(Lookup(r, AppName), ArchiveSuffix))
  {
    assert Line(AppDir) >= 0 && Line(AppName) >= 0 && Line(BuildDir) >= 0;
    assert Line(DownloadDir) >= 0 && Line(ArchiveName) >= 0;
  }

  /** The defaults of `initialize` that are fixed values. */
  lemma SettledFixed(config: Hash, r: Hash, pwd: string)
    requires SettledFrom(config, r, pwd)
    ensures Lookup(r, Files) == Or(Lookup(config, Files), Strs(DefaultFiles))
    ensures Lookup(r, Executables) == Or(Lookup(config, Executables), Strs(DefaultExecutables))
    ensures Lookup(r, GemExecutables) == Or(Lookup(config, GemExecutables), Pairs([]))
    ensures Lookup(r, Target) == Or(Lookup(config, Target), Str(DefaultTarget))
    ensures Lookup(r, TravelingRubyVersion) == Or(Lookup(config, TravelingRubyVersion), Str(DefaultTravelingRubyVersion))
    ensures Lookup(r, WithoutGroups) == Or(Lookup(config, WithoutGroups), Strs(DefaultWithoutGroups))
  {
    assert Line(Files) >= 0 && Line(Executables) >= 0 && Line(GemExecutables) >= 0;
    assert Line(Target) >= 0 && Line(TravelingRubyVersion) >= 0 && Line(WithoutGroups) >= 0;
  }

  /** No option without a line in `initialize` changes. */
  lemma ResolveKeepsOthers(config: Hash, pwd: string, k: Key)
    requires Line(k) < 0
    ensures Lookup(ResolveDefaults(config, pwd), k) == Lookup(config, k)
  {
    SettledUntouched(config, |DefaultOrder|, Defaults(pwd), k);
  }

  /** Every default is set and has the type its option needs. */
  lemma DefaultFits(k: Key, h: Hash, pwd: string)
    requires 0 <= Line(k)
    ensures Truthy(DefaultFor(k, h, pwd)) && Fits(k, DefaultFor(k, h, pwd))
  {
  }

  /** A well-typed configuration comes out of `initialize` resolved. */
  lemma ResolvedAfterDefaults(config: Hash, pwd: string)
    requires WellTyped(config)
    ensures Resolved(ResolveDefaults(config, pwd))
  {
    var r := ResolveDefaults(config, pwd);
    ResolveSettles(config, pwd);
    forall k
      ensures Fits(k, Lookup(r, k)) && (0 <= Line(k) ==> Truthy(Lookup(r, k)))
    {
      if 0 <= Line(k) {
        DefaultFits(k, r, pwd);
      } else {
        ResolveKeepsOthers(config, pwd, k);
      }
    }
  }

  /** Line `n` onwards of `initialize` change nothing in a hash whose options for the first `n` lines are all set. */
  lemma {:induction false} SettledIdle(h: Hash, n: nat, d: (Key, Hash) -> Value)
    requires n <= |DefaultOrder|
    requires forall k | 0 <= Line(k) < n :: Truthy(Lookup(h, k))
    ensures Settled(h, n, d) == h
  {
    if n > 0 {
      SettledIdle(h, n - 1, d);
      LineOf(n - 1);
    }
  }

  /** Filling in the defaults a second time, from any working directory, changes nothing. */
  lemma ResolveIdempotent(config: Hash, pwd: string, pwd': string)
    ensures ResolveDefaults(ResolveDefaults(config, pwd), pwd') == ResolveDefaults(config, pwd)
  {
    var r := ResolveDefaults(config, pwd);
    ResolveSettles(config, pwd);
    forall k | 0 <= Line(k) ensures Truthy(Lookup(r, k)) {
      DefaultFits(k, r, pwd);
    }
    SettledIdle(r, |DefaultOrder|, Defaults(pwd'));
  }

  /** The option types `create` relies on: the globs, pairs and names it iterates over, joins and interpolates. */
  predicate Ready(c: Hash) {
    && Lookup(c, AppDir).Str? && Lookup(c, BuildDir).Str? && Lookup(c, DownloadDir).Str?
    && Lookup(c, ArchiveName).Str? && Lookup(c, Target).Str? && Lookup(c, TravelingRubyVersion).Str?
    && Lookup(c, Files).Strs? && Lookup(c, Executables).Strs? && Lookup(c, GemExecutables).Pairs?
    && Lookup(c, WithoutGroups).Strs? && I.BuildCommandOption(Lookup(c, BuildCommand))
  }

  /** A resolved configuration has every type `create` relies on. */
  lemma ResolvedReady(c: Hash)
    requires Resolved(c)
    ensures Ready(c)
  {
    assert Line(AppDir) >= 0 && Line(BuildDir) >= 0 && Line(DownloadDir) >= 0 && Line(ArchiveName) >= 0;
    assert Line(Target) >= 0 && Line(TravelingRubyVersion) >= 0;
    assert Line(Files) >= 0 && Line(Executables) >= 0 && Line(GemExecutables) >= 0 && Line(WithoutGroups) >= 0;
    assert Fits(BuildCommand, Lookup(c, BuildCommand));
  }

  // ---------------------------------------------------------------------
  // Staging

  /** The directories `create` works with: the application's, the temporary package and the working directory. */
  datatype Layout = Layout(project: string, package: string, cwd: string)

  /** One entry `create` stages in the package. */
  datatype Stage =
    | SourceFile(rel: string)                   // a match of a `files` glob, relative to the project
    | ExecutableFile(rel: string)               // a match of an `executables` glob
    | GemExecutable(gem: string, exec: string)  // a `gem_executables` pair

  /** The matches of one glob as stages. */
  function Matched(matches: seq<string>, executable: bool): seq<Stage> {
    seq(|matches|, i requires 0 <= i < |matches| =>
      if executable then ExecutableFile(matches[i]) else SourceFile(matches[i]))
  }

  /** Every match of every glob in `patterns`, glob by glob, in the order the globs list them. */
  function Expanded(glob: (string, string) -> seq<string>, project: string, patterns: seq<string>, executable: bool): seq<Stage>
    decreases |patterns|
  {
    if |patterns| == 0 then []
    else Expanded(glob, project, patterns[..|patterns| - 1], executable)
         + Matched(glob(project, patterns[|patterns| - 1]), executable)
  }

  lemma {:induction false} ExpandedAppend(glob: (string, string) -> seq<string>, project: string,
                                          a: seq<string>, b: seq<string>, executable: bool)
    ensures Expanded(glob, project, a + b, executable)
         == Expanded(glob, project, a, executable) + Expanded(glob, project, b, executable)
    decreases |b|
  {
    if |b| > 0 {
      var b' := b[..|b| - 1];
      assert (a + b)[..|a + b| - 1] == a + b';
      ExpandedAppend(glob, project, a, b', executable);
    } else {
      assert a + b == a;
    }
  }

  function GemStages(pairs: seq<(string, string)>): seq<Stage> {
    seq(|pairs|, i requires 0 <= i < |pairs| => GemExecutable(pairs[i].0, pairs[i].1))
  }

  /** `mkdir_p` of the parent of a relative path in the package, unless the parent is `.`. */
  function ParentOps(lay: Layout, rel: string): seq<FileOp> {
    if Dirname(rel) == "." then [] else [MakePath(PathJoin(lay.package, Dirname(rel)))]
  }

  /**
   * `copy_file`: the parent directory, then the copy, unless the relative
   * path names a directory; Ruby answers `directory?` for that relative path
   * from the working directory.
   */
  function CopyFileOps(lay: Layout, dirs: set<string>, rel: string): seq<FileOp> {
    if PathJoin(lay.cwd, rel) in dirs then ParentOps(lay, rel)
    else ParentOps(lay, rel) + [CopyPath(PathJoin(lay.project, rel), PathJoin(lay.package, rel))]
  }

  /** `create_shim` and `create_gem_shim`: write the script, then make it executable. */
  function ShimOps(path: string, shim: S.Shim): seq<FileOp> {
    [WritePath(path, S.Render(shim)), ModePath(ExecutableMode, path)]
  }

  /** Where the shim of an executable goes: the package's top level, under the executable's basename. */
  function ShimPath(lay: Layout, rel: string): string {
    PathJoin(lay.package, Basename(rel))
  }

  /** `ExecShim.new(*executable.split)` */
  function ExecShimOf(rel: string): S.Shim {
    S.ExecShim(Dirname(rel), Basename(rel))
  }

  /** The package's copy of an executable, which `chmod 0755` makes executable. */
  function ModeTarget(lay: Layout, rel: string): string {
    PathJoin(lay.package, rel)
  }

  /** The path `copy_executables` passes to `chmod`: the package joined with the executable's path in the project. */
  function WrittenModeTarget(lay: Layout, rel: string): string {
    PathJoin(lay.package, PathJoin(lay.project, rel))
  }

  /** `copy_executables` for a match that is a file: copy, `chmod 0755`, shim. */
  function ExecutableOps(lay: Layout, dirs: set<string>, rel: string): seq<FileOp> {
    CopyFileOps(lay, dirs, rel) + [ModePath(ExecutableMode, ModeTarget(lay, rel))]
    + ShimOps(ShimPath(lay, rel), ExecShimOf(rel))
  }

  /** The file operations staging one entry performs, decided on the tree it finds. */
  function StageOps(lay: Layout, files: map<string, FileEntry>, dirs: set<string>, stage: Stage): seq<FileOp> {
    match stage
    case SourceFile(rel) => CopyFileOps(lay, dirs, rel)
    case ExecutableFile(rel) =>
      if PathJoin(lay.project, rel) !in files then [] else ExecutableOps(lay, dirs, rel)
    case GemExecutable(gem, exec) => ShimOps(PathJoin(lay.package, exec), S.GemShim(gem, exec))
  }

  /** A way of staging entries: the file operations for an entry, decided on the tree it finds. */
  type Plan = (map<string, FileEntry>, set<string>, Stage) -> seq<FileOp>

  /** `plan` stages entries as `create` does for `lay`. */
  ghost predicate Plans(plan: Plan, lay: Layout) {
    forall files, dirs, stage {:trigger StageOps(lay, files, dirs, stage)} ::
      plan(files, dirs, stage) == StageOps(lay, files, dirs, stage)
  }

  function StagePlan(lay: Layout): Plan {
    (files, dirs, stage) => StageOps(lay, files, dirs, stage)
  }

  lemma StagePlanPlans(lay: Layout)
    ensures Plans(StagePlan(lay), lay)
  {
  }

  /** Staging entries in order by `plan`; the first that raises ends the sequence. */
  function Staged(plan: Plan, files: map<string, FileEntry>, dirs: set<string>, stages: seq<Stage>): Outcome
    decreases |stages|
  {
    if |stages| == 0 then Outcome(files, dirs, [], Completed)
    else
      var prev := Staged(plan, files, dirs, stages[..|stages| - 1]);
      Then(prev, AppliedAll(prev.files, prev.dirs, plan(prev.files, prev.dirs, stages[|stages| - 1])))
  }

  /** Staging `a` and then `b` is staging `a + b`. */
  lemma {:induction false} StagedAppend(plan: Plan, files: map<string, FileEntry>, dirs: set<string>,
                                        a: seq<Stage>, b: seq<Stage>)
    ensures var x := Staged(plan, files, dirs, a);
      Staged(plan, files, dirs, a + b) == Then(x, Staged(plan, x.files, x.dirs, b))
    decreases |b|
  {
    var x := Staged(plan, files, dirs, a);
    if |b| == 0 {
      assert a + b == a;
    } else {
      var b' := b[..|b| - 1];
      assert (a + b)[..|a + b| - 1] == a + b';
      StagedAppend(plan, files, dirs, a, b');
      var y' := Staged(plan, x.files, x.dirs, b');
      var prev := Then(x, y');
      var last := AppliedAll(prev.files, prev.dirs, plan(prev.files, prev.dirs, b[|b| - 1]));
      assert Staged(plan, files, dirs, a + b) == Then(prev, last);
      if x.result.Completed? {
        assert Staged(plan, x.files, x.dirs, b) == Then(y', last);
        ThenAssoc(x, y', last);
      }
    }
  }

  /** Once an entry has raised, the entries after it are not staged. */
  lemma StagedStops(plan: Plan, files: map<string, FileEntry>, dirs: set<string>, stages: seq<Stage>, k: nat)
    requires k <= |stages|
    requires Staged(plan, files, dirs, stages[..k]).result.Raised?
    ensures Staged(plan, files, dirs, stages) == Staged(plan, files, dirs, stages[..k])
  {
    assert stages == stages[..k] + stages[k..];
    StagedAppend(plan, files, dirs, stages[..k], stages[k..]);
  }

  /** Once the matches of the first `k` globs have raised, the later globs stage nothing. */
  lemma ExpandedStops(plan: Plan, files: map<string, FileEntry>, dirs: set<string>, glob: (string, string) -> seq<string>,
                      project: string, patterns: seq<string>, k: nat, executable: bool)
    requires k <= |patterns|
    requires Staged(plan, files, dirs, Expanded(glob, project, patterns[..k], executable)).result.Raised?
    ensures Staged(plan, files, dirs, Expanded(glob, project, patterns, executable))
         == Staged(plan, files, dirs, Expanded(glob, project, patterns[..k], executable))
  {
    var done := Expanded(glob, project, patterns[..k], executable);
    assert patterns == patterns[..k] + patterns[k..];
    ExpandedAppend(glob, project, patterns[..k], patterns[k..], executable);
    StagedAppend(plan, files, dirs, done, Expanded(glob, project, patterns[k..], executable));
  }

  // ---------------------------------------------------------------------
  // Packing and the whole of `create`

  /** `'tar -czf %s %s' % [archive_name, Dir['*'].join(' ')]` */
  function TarCommand(name: string, entries: seq<string>): string {
    "tar -czf " + name + " " + JoinWith(entries, " ")
  }

  /** `tar` run in the package over its top-level entries; on success the archive is in the package. */
  function Packed(host: Host, files: map<string, FileEntry>, dirs: set<string>, tmp: string, name: string): Outcome {
    var entries := host.glob(tmp, "*");
    var command := TarCommand(name, entries);
    var r := ExecOutcome(command, host.shell(Invocation(command, map[])));
    Outcome(if r.Ok? then files[PathJoin(tmp, name) := FileEntry(host.packer(entries), DefaultMode)] else files,
            dirs, [Run(Invocation(command, map[]))], StatusOf(r))
  }

  /** `create_archive`, run with the package as working directory: pack, then copy the archive to the build directory. */
  function Archived(host: Host, files: map<string, FileEntry>, dirs: set<string>, tmp: string, build: string, name: string): Outcome {
    var x := Packed(host, files, dirs, tmp, name);
    Then(x, AppliedAll(x.files, x.dirs, [MakePath(PathJoin(tmp, build)), CopyPath(PathJoin(tmp, name), PathJoin(tmp, build))]))
  }

  /** The fetcher `create` hands the installer. */
  function FetcherOf(host: Host, c: Hash): F.Fetcher {
    F.NewFetcher(StrOf(c, DownloadDir), StrOf(c, Target), StrOf(c, TravelingRubyVersion), c, host.rubyVersion)
  }

  /** Where `create` stages: the application's directory, the package `tmp` and the working directory `cwd`. */
  function LayoutOf(c: Hash, tmp: string, cwd: string): Layout {
    Layout(StrOf(c, AppDir), tmp, cwd)
  }

  /** `Dir.mktmpdir` creates the package directory. */
  function TmpDirMade(tmp: string, files: map<string, FileEntry>, dirs: set<string>): Outcome {
    Applied(files, dirs, MakePath(tmp))
  }

  /** `copy_source`: every match of every `files` glob, staged in order. */
  function SourceCopied(host: Host, c: Hash, tmp: string, cwd: string, files: map<string, FileEntry>, dirs: set<string>): Outcome
    requires Ready(c)
  {
    var lay := LayoutOf(c, tmp, cwd);
    Staged(StagePlan(lay), files, dirs, Expanded(host.glob, lay.project, Lookup(c, Files).items, false))
  }

  /** `copy_executables`: every match of every `executables` glob, staged in order. */
  function ExecutablesCopied(host: Host, c: Hash, tmp: string, cwd: string, files: map<string, FileEntry>, dirs: set<string>): Outcome
    requires Ready(c)
  {
    var lay := LayoutOf(c, tmp, cwd);
    Staged(StagePlan(lay), files, dirs, Expanded(host.glob, lay.project, Lookup(c, Executables).items, true))
  }

  /** `create_gem_shims`: a shim for every `gem_executables` pair, in order. */
  function GemShimsCreated(c: Hash, tmp: string, cwd: string, files: map<string, FileEntry>, dirs: set<string>): Outcome
    requires Ready(c)
  {
    Staged(StagePlan(LayoutOf(c, tmp, cwd)), files, dirs, GemStages(Lookup(c, GemExecutables).pairs))
  }

  /** `fetcher`: the fetcher's `setup` creates the download directory. */
  function FetcherSetUp(host: Host, c: Hash, files: map<string, FileEntry>, dirs: set<string>): Outcome {
    Applied(files, dirs, MakePath(FetcherOf(host, c).downloadDir))
  }

  /** `install_dependencies`: every step of the installer for the package. */
  function DependenciesInstalled(host: Host, c: Hash, tmp: string, files: map<string, FileEntry>, dirs: set<string>): Outcome
    requires Ready(c)
  {
    I.Performed(host, files, dirs, I.ActionsUpTo(I.SettingsOf(tmp, FetcherOf(host, c), c), |I.Steps|, host.gemspecs))
  }

  /** `create_archive(build_dir)` inside `Dir.chdir(tmp_dir)`. */
  function ArchiveCreated(host: Host, c: Hash, tmp: string, files: map<string, FileEntry>, dirs: set<string>): Outcome {
    Archived(host, files, dirs, tmp, StrOf(c, BuildDir), StrOf(c, ArchiveName))
  }

  /** What one step of the block does, started on a tree. */
  type Step = (map<string, FileEntry>, set<string>) -> Outcome

  /** The steps of the block `create` runs, in order. */
  function CreateSteps(host: Host, c: Hash, tmp: string, cwd: string): seq<Step>
    requires Ready(c)
  {
    [ (files, dirs) => TmpDirMade(tmp, files, dirs),
      (files, dirs) => SourceCopied(host, c, tmp, cwd, files, dirs),
      (files, dirs) => ExecutablesCopied(host, c, tmp, cwd, files, dirs),
      (files, dirs) => GemShimsCreated(c, tmp, cwd, files, dirs),
      (files, dirs) => FetcherSetUp(host, c, files, dirs),
      (files, dirs) => DependenciesInstalled(host, c, tmp, files, dirs),
      (files, dirs) => ArchiveCreated(host, c, tmp, files, dirs) ]
  }

  /** `steps` are the steps of the block for `host`, `c`, `tmp` and `cwd`, step by step. */
  ghost predicate Steps(steps: seq<Step>, host: Host, c: Hash, tmp: string, cwd: string) {
    && Ready(c)
    && |steps| == 7
    && (forall files, dirs {:trigger TmpDirMade(tmp, files, dirs)} ::
          steps[0](files, dirs) == TmpDirMade(tmp, files, dirs))
    && (forall files, dirs {:trigger SourceCopied(host, c, tmp, cwd, files, dirs)} ::
          steps[1](files, dirs) == SourceCopied(host, c, tmp, cwd, files, dirs))
    && (forall files, dirs {:trigger ExecutablesCopied(host, c, tmp, cwd, files, dirs)} ::
          steps[2](files, dirs) == ExecutablesCopied(host, c, tmp, cwd, files, dirs))
    && (forall files, dirs {:trigger GemShimsCreated(c, tmp, cwd, files, dirs)} ::
          steps[3](files, dirs) == GemShimsCreated(c, tmp, cwd, files, dirs))
    && (forall files, dirs {:trigger FetcherSetUp(host, c, files, dirs)} ::
          steps[4](files, dirs) == FetcherSetUp(host, c, files, dirs))
    && (forall files, dirs {:trigger DependenciesInstalled(host, c, tmp, files, dirs)} ::
          steps[5](files, dirs) == DependenciesInstalled(host, c, tmp, files, dirs))
    && (forall files, dirs {:trigger ArchiveCreated(host, c, tmp, files, dirs)} ::
          steps[6](files, dirs) == ArchiveCreated(host, c, tmp, files, dirs))
  }

  lemma CreateStepsSteps(host: Host, c: Hash, tmp: string, cwd: string)
    requires Ready(c)
    ensures Steps(CreateSteps(host, c, tmp, cwd), host, c, tmp, cwd)
  {
  }

  /** The steps in order; the first that raises ends the block. */
  function Block(steps: seq<Step>, files: map<string, FileEntry>, dirs: set<string>): Outcome
    decreases |steps|
  {
    if |steps| == 0 then Outcome(files, dirs, [], Completed)
    else
      var x := steps[0](files, dirs);
      Then(x, Block(steps[1..], x.files, x.dirs))
  }

  /** Running `a` and then `b` is running `a + b`. */
  lemma {:induction false} BlockAppend(a: seq<Step>, b: seq<Step>, files: map<string, FileEntry>, dirs: set<string>)
    ensures var x := Block(a, files, dirs);
      Block(a + b, files, dirs) == Then(x, Block(b, x.files, x.dirs))
    decreases |a|
  {
    if |a| == 0 {
      assert a + b == b;
    } else {
      var y := a[0](files, dirs);
      assert (a + b)[0] == a[0] && (a + b)[1..] == a[1..] + b;
      BlockAppend(a[1..], b, y.files, y.dirs);
      var z := Block(a[1..], y.files, y.dirs);
      ThenAssoc(y, z, Block(b, z.files, z.dirs));
    }
  }

  /**
   * After the first `k` steps completed and left `host` where they lead,
   * running step `k` from there leaves it where the first `k + 1` lead.
   */
  lemma BlockNext(host: Host, log: seq<Event>, steps: seq<Step>, k: nat, files: map<string, FileEntry>, dirs: set<string>)
    requires k < |steps|
    requires var x := Block(steps[..k], files, dirs);
      x.result.Completed? && Reached(host, log + x.events, steps[k](x.files, x.dirs))
    ensures var x := Block(steps[..k], files, dirs);
      var o := Block(steps[..k + 1], files, dirs);
      Reached(host, log, o) && o.result == steps[k](x.files, x.dirs).result
  {
    var x := Block(steps[..k], files, dirs);
    var y := steps[k](x.files, x.dirs);
    assert steps[..k + 1] == steps[..k] + [steps[k]];
    BlockAppend(steps[..k], [steps[k]], files, dirs);
    assert Block([steps[k]], x.files, x.dirs) == y by {
      assert [steps[k]][1..] == [];
    }
    ReachedThen(host, log, x, y);
  }

  /** Once the first `k` steps have raised, or all have run, the block is over. */
  lemma BlockDone(host: Host, log: seq<Event>, steps: seq<Step>, k: nat, files: map<string, FileEntry>, dirs: set<string>)
    requires k <= |steps|
    requires k == |steps| || Block(steps[..k], files, dirs).result.Raised?
    requires Reached(host, log, Block(steps[..k], files, dirs))
    ensures Block(steps, files, dirs) == Block(steps[..k], files, dirs)
    ensures Reached(host, log, Block(steps, files, dirs))
  {
    assert steps == steps[..k] + steps[k..];
    BlockAppend(steps[..k], steps[k..], files, dirs);
  }

  /** The block `create` runs in the temporary directory `tmp`. */
  function Created(host: Host, c: Hash, tmp: string, cwd: string, files: map<string, FileEntry>, dirs: set<string>): Outcome
    requires Ready(c)
  {
    Block(CreateSteps(host, c, tmp, cwd), files, dirs)
  }

  /** `create` as a whole: the block, then the removal of the temporary directory whatever the block did. */
  function CreateOutcome(host: Host, c: Hash, tmp: string, cwd: string, files: map<string, FileEntry>, dirs: set<string>): Outcome
    requires Ready(c)
  {
    var o := Created(host, c, tmp, cwd, files, dirs);
    Finally(o, RemovedTree(o.files, o.dirs, tmp))
  }

  /** What `create` returns, or the error it raises. */
  function CreateResult(c: Hash, o: Outcome): Result<string> {
    if o.result.Raised? then Err(o.result.error) else Ok(FileJoin(StrOf(c, BuildDir), StrOf(c, ArchiveName)))
  }

  /** `Tara::Archive`: the configuration hash it was given, with the defaults filled in. */
  class Archive {
    const config: ConfigHash

    /** `Archive.new(config)`: keeps the caller's hash and runs the `||=` lines on it in order. */
    constructor (config: ConfigHash, pwd: string)
      modifies config
      ensures this.config == config
      ensures config.entries == ResolveDefaults(old(config.entries), pwd)
    {
      this.config := config;
      new;
      ghost var d := Defaults(pwd);
      ghost var start := config.entries;
      for i := 0 to |DefaultOrder|
        invariant config.entries == Settled(start, i, d)
      {
        var k := DefaultOrder[i];
        config.entries := config.entries[k := Or(Lookup(config.entries, k), DefaultFor(k, config.entries, pwd))];
      }
    }

    /** `copy_file`: the parent directory in the package, then the copy unless the match is a directory. */
    method CopyFile(host: Host, lay: Layout, rel: string) returns (st: Status)
      modifies host
      ensures var o := AppliedAll(old(host.files), old(host.dirs), CopyFileOps(lay, old(host.dirs), rel));
        Reached(host, old(host.log), o) && st == o.result
    {
      ghost var files0, dirs0, log0 := host.files, host.dirs, host.log;
      ghost var done: seq<FileOp> := [];
      var isDirectory := PathJoin(lay.cwd, rel) in host.dirs;
      var parent := Dirname(rel);
      st := Completed;
      if parent != "." {
        var op := MakePath(PathJoin(lay.package, parent));
        st := host.ApplyNext(op, files0, dirs0, log0, done);
        done := done + [op];
        if st.Raised? {
          if !isDirectory {
            AppliedAllRaised(files0, dirs0, done, [CopyPath(PathJoin(lay.project, rel), PathJoin(lay.package, rel))]);
          }
          return;
        }
      }
      if !isDirectory {
        var op := CopyPath(PathJoin(lay.project, rel), PathJoin(lay.package, rel));
        st := host.ApplyNext(op, files0, dirs0, log0, done);
        done := done + [op];
      }
      assert done == CopyFileOps(lay, dirs0, rel);
    }

    /** `create_shim` and `create_gem_shim`: the shim's text through an IO object, then `chmod 0755`. */
    method CreateShim(host: Host, path: string, shim: S.Shim) returns (st: Status)
      modifies host
      ensures var o := AppliedAll(old(host.files), old(host.dirs), ShimOps(path, shim));
        Reached(host, old(host.log), o) && st == o.result
    {
      ghost var files0, dirs0, log0 := host.files, host.dirs, host.log;
      var io := new Stream();
      S.Write(shim, io);
      var write := WritePath(path, io.written);
      var chmod := ModePath(ExecutableMode, path);
      assert io.written == S.Render(shim);
      assert [write] + [chmod] == ShimOps(path, shim);
      assert [] + [write] == [write];
      st := host.ApplyNext(write, files0, dirs0, log0, []);
      if st.Raised? {
        AppliedAllRaised(files0, dirs0, [write], [chmod]);
        return;
      }
      st := host.ApplyNext(chmod, files0, dirs0, log0, [write]);
    }

    /** The body of `copy_executables` for one match that is a file. */
    method StageExecutable(host: Host, lay: Layout, rel: string) returns (st: Status)
      modifies host
      ensures var o := AppliedAll(old(host.files), old(host.dirs), ExecutableOps(lay, old(host.dirs), rel));
        Reached(host, old(host.log), o) && st == o.result
    {
      ghost var files0, dirs0, log0 := host.files, host.dirs, host.log;
      ghost var copy := CopyFileOps(lay, dirs0, rel);
      var chmod := ModePath(ExecutableMode, ModeTarget(lay, rel));
      ghost var shimOps := ShimOps(ShimPath(lay, rel), ExecShimOf(rel));
      st := CopyFile(host, lay, rel);
      if st.Raised? {
        AppliedAllRaised(files0, dirs0, copy, [chmod] + shimOps);
        assert copy + [chmod] + shimOps == copy + ([chmod] + shimOps);
        return;
      }
      st := host.ApplyNext(chmod, files0, dirs0, log0, copy);
      if st.Raised? {
        AppliedAllRaised(files0, dirs0, copy + [chmod], shimOps);
        return;
      }
      st := CreateShim(host, ShimPath(lay, rel), ExecShimOf(rel));
      ReachedAll(host, log0, files0, dirs0, copy + [chmod], shimOps);
    }

    /** Stages one entry as `StageOps` says. */
    method RunStage(host: Host, lay: Layout, stage: Stage) returns (st: Status)
      modifies host
      ensures var o := AppliedAll(old(host.files), old(host.dirs), StageOps(lay, old(host.files), old(host.dirs), stage));
        Reached(host, old(host.log), o) && st == o.result
    {
      ghost var files0, dirs0, log0 := host.files, host.dirs, host.log;
      match stage
      case SourceFile(rel) =>
        st := CopyFile(host, lay, rel);
      case ExecutableFile(rel) =>
        if PathJoin(lay.project, rel) in host.files {
          st := StageExecutable(host, lay, rel);
        } else {
          st := Completed;
        }
      case GemExecutable(gem, exec) =>
        st := CreateShim(host, PathJoin(lay.package, exec), S.GemShim(gem, exec));
    }

    /** Stages entries in order, stopping at the first that raises. */
    method RunStages(host: Host, lay: Layout, stages: seq<Stage>, ghost plan: Plan) returns (st: Status)
      requires Plans(plan, lay)
      modifies host
      ensures var o := Staged(plan, old(host.files), old(host.dirs), stages);
        Reached(host, old(host.log), o) && st == o.result
    {
      st := Completed;
      for i := 0 to |stages|
        invariant var o := Staged(plan, old(host.files), old(host.dirs), stages[..i]);
          Reached(host, old(host.log), o) && o.result == Completed
        invariant st == Completed
      {
        ghost var prev := Staged(plan, old(host.files), old(host.dirs), stages[..i]);
        assert stages[..i + 1][..i] == stages[..i];
        st := RunStage(host, lay, stages[i]);
        ReachedThen(host, old(host.log), prev,
                    AppliedAll(prev.files, prev.dirs, plan(prev.files, prev.dirs, stages[i])));
        if st.Raised? {
          StagedStops(plan, old(host.files), old(host.dirs), stages, i + 1);
          return;
        }
      }
      assert stages[..|stages|] == stages;
    }

    /** `copy_source` (`executable` false) and `copy_executables` (true): every match of every glob. */
    method StageGlobs(host: Host, lay: Layout, patterns: seq<string>, executable: bool, ghost plan: Plan) returns (st: Status)
      requires Plans(plan, lay)
      modifies host
      ensures var o := Staged(plan, old(host.files), old(host.dirs), Expanded(host.glob, lay.project, patterns, executable));
        Reached(host, old(host.log), o) && st == o.result
    {
      st := Completed;
      for i := 0 to |patterns|
        invariant var o := Staged(plan, old(host.files), old(host.dirs), Expanded(host.glob, lay.project, patterns[..i], executable));
          Reached(host, old(host.log), o) && o.result == Completed
        invariant st == Completed
      {
        ghost var done := Expanded(host.glob, lay.project, patterns[..i], executable);
        ghost var prev := Staged(plan, old(host.files), old(host.dirs), done);
        var matches := Matched(host.glob(lay.project, patterns[i]), executable);
        assert patterns[..i + 1][..i] == patterns[..i];
        assert Expanded(host.glob, lay.project, patterns[..i + 1], executable) == done + matches;
        st := RunStages(host, lay, matches, plan);
        StagedAppend(plan, old(host.files), old(host.dirs), done, matches);
        ReachedThen(host, old(host.log), prev, Staged(plan, prev.files, prev.dirs, matches));
        if st.Raised? {
          ExpandedStops(plan, old(host.files), old(host.dirs), host.glob, lay.project, patterns, i + 1, executable);
          return;
        }
      }
      assert patterns[..|patterns|] == patterns;
    }

    /** `copy_source`: stages every match of every `files` glob. */
    method CopySource(host: Host, tmp: string, cwd: string, ghost steps: seq<Step>) returns (st: Status)
      requires Steps(steps, host, config.entries, tmp, cwd)
      modifies host
      ensures var o := steps[1](old(host.files), old(host.dirs)); Reached(host, old(host.log), o) && st == o.result
    {
      var c := config.entries;
      var lay := LayoutOf(c, tmp, cwd);
      StagePlanPlans(lay);
      assert steps[1](host.files, host.dirs) == SourceCopied(host, c, tmp, cwd, host.files, host.dirs);
      st := StageGlobs(host, lay, Lookup(c, Files).items, false, StagePlan(lay));
    }

    /** `copy_executables`: stages every match of every `executables` glob that is a file. */
    method CopyExecutables(host: Host, tmp: string, cwd: string, ghost steps: seq<Step>) returns (st: Status)
      requires Steps(steps, host, config.entries, tmp, cwd)
      modifies host
      ensures var o := steps[2](old(host.files), old(host.dirs)); Reached(host, old(host.log), o) && st == o.result
    {
      var c := config.entries;
      var lay := LayoutOf(c, tmp, cwd);
      StagePlanPlans(lay);
      assert steps[2](host.files, host.dirs) == ExecutablesCopied(host, c, tmp, cwd, host.files, host.dirs);
      st := StageGlobs(host, lay, Lookup(c, Executables).items, true, StagePlan(lay));
    }

    /** `create_gem_shims`: a shim for every `gem_executables` pair. */
    method CreateGemShims(host: Host, tmp: string, cwd: string, ghost steps: seq<Step>) returns (st: Status)
      requires Steps(steps, host, config.entries, tmp, cwd)
      modifies host
      ensures var o := steps[3](old(host.files), old(host.dirs)); Reached(host, old(host.log), o) && st == o.result
    {
      var c := config.entries;
      var lay := LayoutOf(c, tmp, cwd);
      StagePlanPlans(lay);
      assert steps[3](host.files, host.dirs) == GemShimsCreated(c, tmp, cwd, host.files, host.dirs);
      st := RunStages(host, lay, GemStages(Lookup(c, GemExecutables).pairs), StagePlan(lay));
    }

    /** `fetcher`: a fetcher for the configured download directory, target and versions, after its `setup`. */
    method SetUpFetcher(host: Host, tmp: string, cwd: string, ghost steps: seq<Step>) returns (r: Result<F.Fetcher>)
      requires Steps(steps, host, config.entries, tmp, cwd)
      modifies host
      ensures var o := steps[4](old(host.files), old(host.dirs)); Reached(host, old(host.log), o) && StatusOf(r) == o.result
      ensures r.Ok? ==> r.value == FetcherOf(host, config.entries)
    {
      var fetcher := FetcherOf(host, config.entries);
      assert steps[4](host.files, host.dirs) == FetcherSetUp(host, config.entries, host.files, host.dirs);
      r := F.Setup(fetcher, host);
    }

    /** `install_dependencies`: the installer for the package with the set-up fetcher. */
    method InstallDependencies(host: Host, tmp: string, cwd: string, fetcher: F.Fetcher, ghost steps: seq<Step>) returns (st: Status)
      requires Steps(steps, host, config.entries, tmp, cwd)
      requires fetcher == FetcherOf(host, config.entries)
      modifies host
      ensures var o := steps[5](old(host.files), old(host.dirs)); Reached(host, old(host.log), o) && st == o.result
    {
      assert steps[5](host.files, host.dirs) == DependenciesInstalled(host, config.entries, tmp, host.files, host.dirs);
      var installer := new I.Installer(tmp, fetcher, config.entries);
      st := installer.Execute(host);
    }

    /** `create_archive(build_dir)` with the package as working directory. */
    method CreateArchive(host: Host, tmp: string, cwd: string, ghost steps: seq<Step>) returns (st: Status)
      requires Steps(steps, host, config.entries, tmp, cwd)
      modifies host
      ensures var o := steps[6](old(host.files), old(host.dirs)); Reached(host, old(host.log), o) && st == o.result
    {
      var name := StrOf(config.entries, ArchiveName);
      var build := StrOf(config.entries, BuildDir);
      assert steps[6](host.files, host.dirs) == ArchiveCreated(host, config.entries, tmp, host.files, host.dirs);
      var entries := host.glob(tmp, "*");
      var out := Exec(host, TarCommand(name, entries));
      if out.Err? {
        return Raised(out.error);
      }
      host.Deposit(PathJoin(tmp, name), host.packer(entries));
      ghost var x := Packed(host, old(host.files), old(host.dirs), tmp, name);
      ghost var files1, dirs1, log1 := host.files, host.dirs, host.log;
      var mkdir := MakePath(PathJoin(tmp, build));
      var copy := CopyPath(PathJoin(tmp, name), PathJoin(tmp, build));
      assert [] + [mkdir] == [mkdir] && [mkdir] + [copy] == [mkdir, copy];
      st := host.ApplyNext(mkdir, files1, dirs1, log1, []);
      if st.Raised? {
        AppliedAllRaised(files1, dirs1, [mkdir], [copy]);
      } else {
        st := host.ApplyNext(copy, files1, dirs1, log1, [mkdir]);
      }
      ReachedThen(host, old(host.log), x, AppliedAll(files1, dirs1, [mkdir, copy]));
    }

    /**
     * Step `k` of the block: `Dir.mktmpdir`, `copy_source`, `copy_executables`,
     * `create_gem_shims`, `fetcher`, `install_dependencies` with that fetcher, `create_archive`.
     */
    method CreateStep(host: Host, tmp: string, cwd: string, k: nat, ghost steps: seq<Step>) returns (st: Status)
      requires Steps(steps, host, config.entries, tmp, cwd) && k < |steps|
      modifies host
      ensures var o := steps[k](old(host.files), old(host.dirs)); Reached(host, old(host.log), o) && st == o.result
    {
      if k == 0 {
        assert steps[0](host.files, host.dirs) == TmpDirMade(tmp, host.files, host.dirs);
        st := host.Apply(MakePath(tmp));
      } else if k == 1 {
        st := CopySource(host, tmp, cwd, steps);
      } else if k == 2 {
        st := CopyExecutables(host, tmp, cwd, steps);
      } else if k == 3 {
        st := CreateGemShims(host, tmp, cwd, steps);
      } else if k == 4 {
        var fetcher := SetUpFetcher(host, tmp, cwd, steps);
        st := StatusOf(fetcher);
      } else if k == 5 {
        st := InstallDependencies(host, tmp, cwd, FetcherOf(host, config.entries), steps);
      } else {
        st := CreateArchive(host, tmp, cwd, steps);
      }
    }

    /** The block `create` runs in the temporary directory `tmp`: its steps in order, up to the first that raises. */
    method Assemble(host: Host, tmp: string, cwd: string, ghost steps: seq<Step>) returns (st: Status)
      requires Steps(steps, host, config.entries, tmp, cwd)
      modifies host
      ensures var o := Block(steps, old(host.files), old(host.dirs)); Reached(host, old(host.log), o) && st == o.result
    {
      ghost var files0, dirs0, log0 := host.files, host.dirs, host.log;
      st := Completed;
      for k := 0 to 7
        invariant Reached(host, log0, Block(steps[..k], files0, dirs0))
        invariant Block(steps[..k], files0, dirs0).result == Completed && st == Completed
      {
        st := CreateStep(host, tmp, cwd, k, steps);
        BlockNext(host, log0, steps, k, files0, dirs0);
        if st.Raised? {
          BlockDone(host, log0, steps, k + 1, files0, dirs0);
          return;
        }
      }
      BlockDone(host, log0, steps, 7, files0, dirs0);
    }

    /**
     * `create`: the block in a fresh temporary directory, which is removed
     * afterwards whether or not the block raised; the path of the archive in
     * the build directory is returned.
     */
    method Create(host: Host, tmp: string, cwd: string) returns (r: Result<string>)
      requires Ready(config.entries)
      requires tmp !in host.files && tmp !in host.dirs
      modifies host
      ensures var o := CreateOutcome(host, config.entries, tmp, cwd, old(host.files), old(host.dirs));
        Reached(host, old(host.log), o) && r == CreateResult(config.entries, o)
    {
      ghost var o := Created(host, config.entries, tmp, cwd, host.files, host.dirs);
      ghost var log0 := host.log;
      CreateStepsSteps(host, config.entries, tmp, cwd);
      var st := Assemble(host, tmp, cwd, CreateSteps(host, config.entries, tmp, cwd));
      host.RemoveEntry(tmp);
      ReachedFinally(host, log0, o, RemovedTree(o.files, o.dirs, tmp));
      if st.Raised? {
        return Err(st.error);
      }
      return Ok(FileJoin(StrOf(config.entries, BuildDir), StrOf(config.entries, ArchiveName)));
    }
  }
}
