/**
 * The dependency installer (lib/tara/installer.rb). Inside the package
 * directory it runs `bundle install`, unpacks the Traveling Ruby runtime and
 * the prebuilt native gems, and then prunes tests, documentation, build
 * leftovers, Java sources, git metadata and empty directories.
 *
 * Every step is a straight sequence of actions on the host (make a directory,
 * run a command, remove a glob's matches, fetch an artifact). Each step's
 * actions are computed by a pure function of the installer's configuration,
 * and one interpreter, `Perform`, carries them out and is proved to do what
 * `Performed` says: every action in order, stopping at the first that raises.
 */
module Installer {
  import opened Errors
  import opened Text
  import opened Paths
  import opened Options
  import opened Hosts
  import opened Shell
  import F = Fetcher

  // ---------------------------------------------------------------------
  // Actions and their interpretation

  datatype Action =
    | MakeDir(path: string)                                   // FileUtils.mkdir_p
    | Sh(command: string, env: map<string, string>)           // Shell.exec / exec_with_env
    | Remove(pattern: string)                                 // FileUtils.rm_r of Dir[pattern]
    | ForceRemove(pattern: string)                            // FileUtils.rm_rf of Dir[pattern]
    | FetchRuby(fetcher: F.Fetcher)                           // fetcher.fetch_ruby
    | FetchGem(fetcher: F.Fetcher, name: string, version: string) // fetcher.fetch_native_gem

  /** What one action does on `host`'s world from the given tree. */
  function ActionOutcome(host: Host, files: map<string, FileEntry>, dirs: set<string>, a: Action): Outcome {
    match a
    case MakeDir(p) => Applied(files, dirs, MakePath(p))
    case Sh(command, env) =>
      Outcome(files, dirs, [Run(Invocation(command, env))],
              StatusOf(ExecOutcome(command, host.shell(Invocation(command, env)))))
    case Remove(pattern) =>
      Outcome(files, dirs, [RemoveMatches(pattern, false)], host.removal(pattern))
    case ForceRemove(pattern) =>
      Outcome(files, dirs, [RemoveMatches(pattern, true)], Completed)
    case FetchRuby(f) =>
      var o := F.Fetched(files, dirs, host.server, F.RubyRemoteUri(f), F.RubyLocalPath(f), F.RedirectLimit);
      Outcome(o.files, dirs, o.events, StatusOf(o.result))
    case FetchGem(f, n, v) =>
      var o := F.Fetched(files, dirs, host.server, F.NativeGemRemoteUri(f, n, v), F.NativeGemLocalPath(f, n, v), F.RedirectLimit);
      Outcome(o.files, dirs, o.events, StatusOf(o.result))
  }

  /** Actions in order; the first that raises ends the sequence. */
  function Performed(host: Host, files: map<string, FileEntry>, dirs: set<string>, actions: seq<Action>): Outcome
    decreases |actions|
  {
    if |actions| == 0 then Outcome(files, dirs, [], Completed)
    else
      var first := ActionOutcome(host, files, dirs, actions[0]);
      Then(first, Performed(host, first.files, first.dirs, actions[1..]))
  }

  /** `host` is in the state `actions` leave behind from the given one, and `r` is their result. */
  ghost predicate Did(host: Host, files: map<string, FileEntry>, dirs: set<string>, log: seq<Event>,
                      actions: seq<Action>, r: Status)
    reads host
  {
    var o := Performed(host, files, dirs, actions);
    host.files == o.files && host.dirs == o.dirs && host.log == log + o.events && r == o.result
  }

  /** Performs one action, as `ActionOutcome` says. */
  method RunAction(host: Host, a: Action) returns (r: Status)
    modifies host
    ensures var o := ActionOutcome(host, old(host.files), old(host.dirs), a);
      host.files == o.files && host.dirs == o.dirs && host.log == old(host.log) + o.events && r == o.result
  {
    match a
    case MakeDir(p) =>
      r := host.Apply(MakePath(p));
    case Sh(command, env) =>
      var out := ExecWithEnv(host, command, env);
      r := StatusOf(out);
    case Remove(pattern) =>
      r := host.RemoveMatching(pattern);
    case ForceRemove(pattern) =>
      host.RemoveAll(pattern);
      r := Completed;
    case FetchRuby(f) =>
      var path := F.FetchRuby(f, host);
      r := StatusOf(path);
    case FetchGem(f, n, v) =>
      var path := F.FetchNativeGem(f, host, n, v);
      r := StatusOf(path);
  }

  lemma AppendAssoc<T>(a: seq<T>, b: seq<T>, c: seq<T>)
    ensures a + b + c == a + (b + c)
  {
  }

  method Perform(host: Host, actions: seq<Action>) returns (r: Status)
    modifies host
    ensures Did(host, old(host.files), old(host.dirs), old(host.log), actions, r)
    decreases |actions|
  {
    if |actions| == 0 {
      return Completed;
    }
    r := RunAction(host, actions[0]);
    ghost var first := ActionOutcome(host, old(host.files), old(host.dirs), actions[0]);
    if r.Raised? {
      return;
    }
    r := Perform(host, actions[1..]);
    ghost var rest := Performed(host, first.files, first.dirs, actions[1..]);
    AppendAssoc(old(host.log), first.events, rest.events);
  }

  /** Running `a` and then `b` is running `a + b`, except that `b` never starts when `a` raised. */
  lemma {:induction false} PerformedAppend(host: Host, files: map<string, FileEntry>, dirs: set<string>,
                                           a: seq<Action>, b: seq<Action>)
    ensures var x := Performed(host, files, dirs, a);
      Performed(host, files, dirs, a + b) == Then(x, Performed(host, x.files, x.dirs, b))
    decreases |a|
  {
    if |a| == 0 {
      assert a + b == b;
    } else {
      assert (a + b)[0] == a[0];
      assert (a + b)[1..] == a[1..] + b;
      var first := ActionOutcome(host, files, dirs, a[0]);
      if first.result.Completed? {
        var x := Performed(host, first.files, first.dirs, a[1..]);
        var y := Performed(host, x.files, x.dirs, b);
        assert Performed(host, first.files, first.dirs, a[1..] + b) == Then(x, y) by {
          PerformedAppend(host, first.files, first.dirs, a[1..], b);
        }
        ThenAssoc(first, x, y);
      }
    }
  }

  /** Actions that cannot raise and do not touch the tracked tree. */
  predicate Harmless(a: Action) {
    a.ForceRemove? || (a.Sh? && EndsWith(a.command, "|| true"))
  }

  /** Actions that do not touch the tracked tree: the harmless ones and `rm_r` of a glob's matches. */
  predicate Quiet(a: Action) {
    Harmless(a) || a.Remove?
  }

  /**
   * A run of quiet actions leaves the tracked tree alone; it completes
   * exactly when every `rm_r` in it does, and an error it raises is one
   * of theirs.
   */
  lemma {:induction false} QuietRun(host: Host, files: map<string, FileEntry>, dirs: set<string>, actions: seq<Action>)
    requires forall i :: 0 <= i < |actions| ==> Quiet(actions[i])
    ensures var o := Performed(host, files, dirs, actions);
      && o.files == files && o.dirs == dirs
      && (o.result.Completed? <==> forall i :: 0 <= i < |actions| && actions[i].Remove? ==> host.removal(actions[i].pattern).Completed?)
      && (o.result.Raised? ==> exists i :: 0 <= i < |actions| && actions[i].Remove? && o.result == host.removal(actions[i].pattern))
    decreases |actions|
  {
    if |actions| > 0 {
      var a := actions[0];
      if a.Sh? {
        OrTrueNeverRaises(a.command, host.shell(Invocation(a.command, a.env)));
      }
      var first := ActionOutcome(host, files, dirs, a);
      QuietRun(host, files, dirs, actions[1..]);
      var rest := Performed(host, files, dirs, actions[1..]);
      if first.result.Completed? && rest.result.Raised? {
        var i :| 0 <= i < |actions[1..]| && actions[1..][i].Remove? && rest.result == host.removal(actions[1..][i].pattern);
        assert actions[i + 1] == actions[1..][i];
      }
      if first.result.Completed? && rest.result.Completed? {
        forall i | 0 <= i < |actions| && actions[i].Remove?
          ensures host.removal(actions[i].pattern).Completed?
        {
          if i > 0 {
            assert actions[i] == actions[1..][i - 1];
          }
        }
      }
    }
  }

  /** A run of harmless actions always completes and changes nothing but the log. */
  lemma {:induction false} HarmlessNeverFail(host: Host, files: map<string, FileEntry>, dirs: set<string>, actions: seq<Action>)
    requires forall i :: 0 <= i < |actions| ==> Harmless(actions[i])
    ensures var o := Performed(host, files, dirs, actions);
      o.result == Completed && o.files == files && o.dirs == dirs && |o.events| == |actions|
    decreases |actions|
  {
    if |actions| > 0 {
      var a := actions[0];
      if a.Sh? {
        OrTrueNeverRaises(a.command, host.shell(Invocation(a.command, a.env)));
      }
      HarmlessNeverFail(host, files, dirs, actions[1..]);
    }
  }

  // ---------------------------------------------------------------------
  // Commands and paths

  /** `bundle_env(ignore_config)` */
  function BundleEnv(ignoreConfig: bool): (env: map<string, string>)
    ensures "BUNDLE_GEMFILE" in env && env["BUNDLE_GEMFILE"] == "lib/vendor/Gemfile"
    ensures "BUNDLE_IGNORE_CONFIG" in env <==> ignoreConfig
    ensures ignoreConfig ==> env["BUNDLE_IGNORE_CONFIG"] == "1"
    ensures env.Keys <= {"BUNDLE_GEMFILE", "BUNDLE_IGNORE_CONFIG"}
  {
    var env := map["BUNDLE_GEMFILE" := "lib/vendor/Gemfile"];
    if ignoreConfig then env["BUNDLE_IGNORE_CONFIG" := "1"] else env
  }

  /** The fixed part of `bundler_command`. */
  const BundleInstall: string := "bundle install --jobs 4 --path ." + " --gemfile lib/vendor/Gemfile"

  /** `bundler_command`: the groups to skip follow `--without`, separated by spaces. */
  function BundlerCommand(withoutGroups: seq<string>): string {
    BundleInstall + if |withoutGroups| > 0 then " --without " + JoinWith(withoutGroups, " ") else ""
  }

  /**
   * Split into words, the bundler command is the words of `bundle install`
   * and its fixed options, followed by `--without` and each group as a word
   * of its own when there are any groups.
   */
  lemma BundlerCommandWords(withoutGroups: seq<string>)
    requires forall i :: 0 <= i < |withoutGroups| ==> ' ' !in withoutGroups[i]
    ensures |withoutGroups| == 0 ==> BundlerCommand(withoutGroups) == BundleInstall
    ensures |withoutGroups| > 0 ==>
      Split(BundlerCommand(withoutGroups), ' ') == Split(BundleInstall, ' ') + ["--without"] + withoutGroups
  {
    if |withoutGroups| > 0 {
      var flag := "--without";
      assert " --without " == [' '] + flag + [' '];
      assert BundlerCommand(withoutGroups) == BundleInstall + [' '] + flag + [' '] + JoinWith(withoutGroups, " ");
      OptionWords(BundleInstall, flag, withoutGroups);
    }
  }

  /** An option followed by a space-separated list adds the option and then each item as a word. */
  lemma OptionWords(command: string, flag: string, items: seq<string>)
    requires ' ' !in flag && |items| > 0
    requires forall i :: 0 <= i < |items| ==> ' ' !in items[i]
    ensures Split(command + [' '] + flag + [' '] + JoinWith(items, " "), ' ') == Split(command, ' ') + [flag] + items
  {
    var joined := JoinWith(items, " ");
    assert command + [' '] + flag + [' '] + joined == command + [' '] + (flag + [' '] + joined);
    SplitAppend(command, ' ', flag + [' '] + joined);
    SplitAppend(flag, ' ', joined);
    SplitWithout(flag, ' ');
    SplitJoin(items, ' ');
  }

  /*
   * The package layout, as paths relative to the package directory. The
   * source builds each one by successive `Pathname#join` calls;
   * `LayoutJoinedStepwise` shows the single joins below equal to those.
   */
  const LibDir: string := "lib"
  const VendorDir: string := Sub(LibDir, "vendor")
  const RubyVendorDir: string := Sub(VendorDir, "ruby")
  const RubyDir: string := Sub(LibDir, "ruby")
  const VendorGemsDir: string := Sub(Sub(RubyVendorDir, "*"), "gems")
  const BundlerGemsDir: string := Sub(Sub(Sub(RubyVendorDir, "*"), "bundler"), "gems")
  const GemExtDirs: string := Sub(Sub(VendorGemsDir, "*"), "ext")

  function LibPath(packageDir: string): string { PathJoin(packageDir, LibDir) }
  function VendorPath(packageDir: string): string { PathJoin(packageDir, VendorDir) }
  function RubyVendorPath(packageDir: string): string { PathJoin(packageDir, RubyVendorDir) }
  function RubyPath(packageDir: string): string { PathJoin(packageDir, RubyDir) }
  function BundlerGemsGlob(packageDir: string): string { PathJoin(packageDir, BundlerGemsDir) }
  function VendorGemsGlob(packageDir: string): string { PathJoin(packageDir, VendorGemsDir) }

  /** Every layout path is a clean relative directory, and the gem directories lie below `lib/vendor/ruby`. */
  lemma LayoutComponents()
    ensures Component(LibDir) && Component(VendorDir) && Component(RubyVendorDir) && Component(RubyDir)
    ensures Component(Sub(RubyVendorDir, "*")) && Component(Sub(Sub(RubyVendorDir, "*"), "bundler"))
    ensures Component(VendorGemsDir) && Component(BundlerGemsDir) && Component(Sub(VendorGemsDir, "*"))
    ensures Extends(VendorGemsDir, RubyVendorDir) && Extends(BundlerGemsDir, RubyVendorDir)
    ensures Extends(GemExtDirs, RubyVendorDir)
  {
    SubComponent(LibDir, "vendor");
    SubComponent(VendorDir, "ruby");
    SubComponent(LibDir, "ruby");
    var star := Sub(RubyVendorDir, "*");
    SubComponent(RubyVendorDir, "*");
    SubComponent(star, "gems");
    ExtendsSub(star, RubyVendorDir, "gems");
    SubComponent(star, "bundler");
    ExtendsSub(star, RubyVendorDir, "bundler");
    SubComponent(Sub(star, "bundler"), "gems");
    ExtendsSub(Sub(star, "bundler"), RubyVendorDir, "gems");
    SubComponent(VendorGemsDir, "*");
    ExtendsSub(VendorGemsDir, RubyVendorDir, "*");
    ExtendsSub(Sub(VendorGemsDir, "*"), RubyVendorDir, "ext");
  }

  /** The layout paths are the source's chains of one-component joins. */
  lemma LayoutJoinedStepwise(packageDir: string)
    ensures VendorPath(packageDir) == PathJoin(LibPath(packageDir), "vendor")
    ensures RubyVendorPath(packageDir) == PathJoin(VendorPath(packageDir), "ruby")
    ensures RubyPath(packageDir) == PathJoin(LibPath(packageDir), "ruby")
    ensures VendorGemsGlob(packageDir) == PathJoin(PathJoin(RubyVendorPath(packageDir), "*"), "gems")
    ensures BundlerGemsGlob(packageDir)
         == PathJoin(PathJoin(PathJoin(RubyVendorPath(packageDir), "*"), "bundler"), "gems")
    ensures GemExtDir(packageDir) == PathJoin(PathJoin(VendorGemsGlob(packageDir), "*"), "ext")
  {
    LayoutComponents();
    var star := Sub(RubyVendorDir, "*");
    JoinJoin(packageDir, LibDir, "vendor");
    JoinJoin(packageDir, VendorDir, "ruby");
    JoinJoin(packageDir, LibDir, "ruby");
    JoinJoin(packageDir, RubyVendorDir, "*");
    JoinJoin(packageDir, star, "gems");
    JoinJoin(packageDir, star, "bundler");
    JoinJoin(packageDir, Sub(star, "bundler"), "gems");
    JoinJoin(packageDir, VendorGemsDir, "*");
    JoinJoin(packageDir, Sub(VendorGemsDir, "*"), "ext");
  }

  /** `find_and_remove_files(dir, glob)` */
  function FindFilesCommand(dir: string, glob: string): string {
    "find " + dir + " -name \"" + glob + "\" -type f -exec rm -f \"{}\" \\; 2> /dev/null || true"
  }

  /** `find_and_remove_directories(dir, glob)` */
  function FindDirsCommand(dir: string, glob: string): string {
    "find " + dir + " -name \"" + glob + "\" -type d -exec rm -rf \"{}\" \\; 2> /dev/null || true"
  }

  /** The command of `strip_empty_directories`. */
  function DeleteEmptyDirsCommand(dir: string): string {
    "find " + dir + " -type d -empty -delete 2> /dev/null || true"
  }

  /** The two places `strip_from_gems` looks: gems installed from rubygems and gems bundler checked out of git. */
  datatype GemRoot = Installed | FromGit

  function GemRootDir(root: GemRoot): string {
    match root
    case Installed => VendorGemsDir
    case FromGit => BundlerGemsDir
  }

  function GemRootGlob(packageDir: string, root: GemRoot): string {
    PathJoin(packageDir, GemRootDir(root))
  }

  /** One pruning pass of a package: what it removes and where. */
  datatype PruneRule =
    | RemoveFromGems(root: GemRoot, thing: string)   // rm_r Dir[<root>/*/<thing>]
    | FindFiles(dir: string, glob: string)
    | FindDirs(dir: string, glob: string)
    | DeleteEmptyDirs(dir: string)

  /** The directory or glob a rule works in. */
  function RuleScope(packageDir: string, rule: PruneRule): string {
    match rule
    case RemoveFromGems(root, thing) => PathJoin(PathJoin(GemRootGlob(packageDir, root), "*"), thing)
    case FindFiles(d, _) => d
    case FindDirs(d, _) => d
    case DeleteEmptyDirs(d) => d
  }

  /**
   * The action of a pruning pass: it changes no tracked file, and it is
   * harmless unless it is a gem removal, whose `rm_r` raises when a match
   * cannot be removed.
   */
  function RuleAction(packageDir: string, rule: PruneRule): (a: Action)
    ensures Quiet(a)
    ensures Harmless(a) <==> !rule.RemoveFromGems?
  {
    match rule
    case RemoveFromGems(_, _) => Remove(RuleScope(packageDir, rule))
    case FindFiles(d, g) => Sh(FindFilesCommand(d, g), map[])
    case FindDirs(d, g) => Sh(FindDirsCommand(d, g), map[])
    case DeleteEmptyDirs(d) => Sh(DeleteEmptyDirsCommand(d), map[])
  }

  function RuleActions(packageDir: string, rules: seq<PruneRule>): (r: seq<Action>)
    ensures |r| == |rules|
    ensures forall i :: 0 <= i < |rules| ==> r[i] == RuleAction(packageDir, rules[i])
  {
    seq(|rules|, i requires 0 <= i < |rules| => RuleAction(packageDir, rules[i]))
  }

  /** A component to join onto a path: not empty and not absolute. */
  predicate Relative(name: string) {
    |name| > 0 && name[0] != '/'
  }

  /** `strip_from_gems(things)`: for each thing in turn, its matches under both gem roots. */
  function StripFromGems(things: seq<string>): (r: seq<PruneRule>)
    ensures |r| == 2 * |things|
    ensures forall i :: 0 <= i < |r| ==> r[i].RemoveFromGems?
    decreases |things|
  {
    if |things| == 0 then []
    else [RemoveFromGems(Installed, things[0]), RemoveFromGems(FromGit, things[0])] + StripFromGems(things[1..])
  }

  /** Each thing is removed from the installed gems and then from the git checkouts, in the order given. */
  lemma {:induction false} StripFromGemsCovers(things: seq<string>)
    ensures var r := StripFromGems(things);
      forall k :: 0 <= k < |things| ==>
           r[2 * k] == RemoveFromGems(Installed, things[k]) && r[2 * k + 1] == RemoveFromGems(FromGit, things[k])
    decreases |things|
  {
    if |things| > 0 {
      StripFromGemsCovers(things[1..]);
      var r := StripFromGems(things);
      var rest := StripFromGems(things[1..]);
      forall k | 1 <= k < |things|
        ensures r[2 * k] == RemoveFromGems(Installed, things[k]) && r[2 * k + 1] == RemoveFromGems(FromGit, things[k])
      {
        assert r[2 * k] == rest[2 * (k - 1)] && r[2 * k + 1] == rest[2 * (k - 1) + 1];
        assert things[1..][k - 1] == things[k];
      }
    }
  }

  const TestDirs: seq<string> := ["tests", "test", "spec"]
  const DocGlobs: seq<string> := ["doc*", "example*", "*.txt", "*.md", "*.rdoc"]
  const SourceExtensions: seq<string> := ["c", "cpp", "h", "rl"]
  const CompiledExtensions: seq<string> := ["o", "so", "bundle"]

  /** `find_and_remove_files(dir, "*.<ext>")` for each extension. */
  function RemoveByExtension(dir: string, exts: seq<string>): (r: seq<PruneRule>)
    ensures |r| == |exts|
    ensures forall i :: 0 <= i < |exts| ==> r[i] == FindFiles(dir, "*." + exts[i])
  {
    seq(|exts|, i requires 0 <= i < |exts| => FindFiles(dir, "*." + exts[i]))
  }

  function StripTestsRules(): seq<PruneRule> {
    StripFromGems(TestDirs)
  }

  function StripDocsRules(): seq<PruneRule> {
    StripFromGems(DocGlobs)
  }

  function GemExtDir(packageDir: string): string {
    PathJoin(packageDir, GemExtDirs)
  }

  function StripLeftoversRules(packageDir: string): seq<PruneRule> {
    RemoveByExtension(RubyVendorPath(packageDir), SourceExtensions) + BuildLeftoverRules(packageDir)
  }

  function StripJavaRules(packageDir: string): seq<PruneRule> {
    [FindFiles(VendorGemsGlob(packageDir), "*.java")]
  }

  function StripGitRules(packageDir: string): seq<PruneRule> {
    [FindDirs(VendorGemsGlob(packageDir), ".git"), FindDirs(BundlerGemsGlob(packageDir), ".git")]
  }

  function StripEmptyDirsRules(packageDir: string): seq<PruneRule> {
    [DeleteEmptyDirs(packageDir)]
  }

  lemma GemGlobsUnder(packageDir: string)
    ensures Under(VendorGemsGlob(packageDir), RubyVendorPath(packageDir))
    ensures Under(BundlerGemsGlob(packageDir), RubyVendorPath(packageDir))
  {
    LayoutComponents();
    JoinUnder(packageDir, RubyVendorDir, VendorGemsDir);
    JoinUnder(packageDir, RubyVendorDir, BundlerGemsDir);
  }

  /** Every rule of `rules` works at or below `lib/vendor/ruby`. */
  predicate InVendorRuby(packageDir: string, rules: seq<PruneRule>) {
    forall i :: 0 <= i < |rules| ==> Under(RuleScope(packageDir, rules[i]), RubyVendorPath(packageDir))
  }

  lemma RemoveFromGemsBelow(packageDir: string, rule: PruneRule)
    requires rule.RemoveFromGems? && Relative(rule.thing)
    ensures Under(RuleScope(packageDir, rule), RubyVendorPath(packageDir))
  {
    LayoutComponents();
    var dir := GemRootDir(rule.root);
    var star := Sub(dir, "*");
    SubComponent(dir, "*");
    ExtendsSub(dir, RubyVendorDir, "*");
    ExtendsSub(star, RubyVendorDir, rule.thing);
    JoinJoin(packageDir, dir, "*");
    JoinJoin(packageDir, star, rule.thing);
    JoinUnder(packageDir, RubyVendorDir, Sub(star, rule.thing));
  }

  /** Both removals of one thing stay inside the vendored gems. */
  lemma GemRemovalsScoped(packageDir: string, thing: string)
    requires Relative(thing)
    ensures InVendorRuby(packageDir, [RemoveFromGems(Installed, thing), RemoveFromGems(FromGit, thing)])
  {
    var rules := [RemoveFromGems(Installed, thing), RemoveFromGems(FromGit, thing)];
    forall i | 0 <= i < 2 ensures Under(RuleScope(packageDir, rules[i]), RubyVendorPath(packageDir)) {
      RemoveFromGemsBelow(packageDir, rules[i]);
    }
  }

  lemma {:induction false} StripFromGemsScoped(packageDir: string, things: seq<string>)
    requires forall i :: 0 <= i < |things| ==> Relative(things[i])
    ensures InVendorRuby(packageDir, StripFromGems(things))
    decreases |things|
  {
    if |things| > 0 {
      var first := [RemoveFromGems(Installed, things[0]), RemoveFromGems(FromGit, things[0])];
      var rest := StripFromGems(things[1..]);
      assert StripFromGems(things) == first + rest;
      GemRemovalsScoped(packageDir, things[0]);
      assert forall i :: 0 <= i < |things[1..]| ==> things[1..][i] == things[i + 1];
      StripFromGemsScoped(packageDir, things[1..]);
      InVendorRubyAppend(packageDir, first, rest);
    }
  }

  /*
   * Every pruning pass after installation works inside `lib/vendor/ruby`,
   * so the Ruby runtime in `lib/ruby` and the application's own files are
   * never searched; only the empty-directory sweep covers the whole package.
   */

  lemma StripTestsScoped(packageDir: string)
    ensures InVendorRuby(packageDir, StripTestsRules())
  {
    StripFromGemsScoped(packageDir, TestDirs);
  }

  lemma StripDocsScoped(packageDir: string)
    ensures InVendorRuby(packageDir, StripDocsRules())
  {
    StripFromGemsScoped(packageDir, DocGlobs);
  }

  lemma GemExtDirBelow(packageDir: string)
    ensures Under(GemExtDir(packageDir), RubyVendorPath(packageDir))
  {
    LayoutComponents();
    JoinUnder(packageDir, RubyVendorDir, GemExtDirs);
  }

  lemma InVendorRubyAppend(packageDir: string, a: seq<PruneRule>, b: seq<PruneRule>)
    requires InVendorRuby(packageDir, a) && InVendorRuby(packageDir, b)
    ensures InVendorRuby(packageDir, a + b)
  {
    forall i | 0 <= i < |a + b| ensures Under(RuleScope(packageDir, (a + b)[i]), RubyVendorPath(packageDir)) {
      if i >= |a| {
        assert (a + b)[i] == b[i - |a|];
      }
    }
  }

  /** Removing files by extension below `lib/vendor/ruby` stays there. */
  lemma ByExtensionScoped(packageDir: string, exts: seq<string>)
    ensures InVendorRuby(packageDir, RemoveByExtension(RubyVendorPath(packageDir), exts))
  {
  }

  /** The leftovers of native builds: `extconf.rb` files, and Makefiles and `tmp` directories under gem `ext` dirs. */
  function BuildLeftoverRules(packageDir: string): seq<PruneRule> {
    [ FindFiles(RubyVendorPath(packageDir), "extconf.rb"),
      FindFiles(GemExtDir(packageDir), "Makefile"),
      FindDirs(GemExtDir(packageDir), "tmp") ]
  }

  lemma BuildLeftoversScoped(packageDir: string)
    ensures InVendorRuby(packageDir, BuildLeftoverRules(packageDir))
  {
    var rules := BuildLeftoverRules(packageDir);
    GemExtDirBelow(packageDir);
    forall i | 0 <= i < 3 ensures Under(RuleScope(packageDir, rules[i]), RubyVendorPath(packageDir)) {
      if i > 0 {
        assert RuleScope(packageDir, rules[i]) == GemExtDir(packageDir);
      }
    }
  }

  lemma StripLeftoversScoped(packageDir: string)
    ensures InVendorRuby(packageDir, StripLeftoversRules(packageDir))
  {
    ByExtensionScoped(packageDir, SourceExtensions);
    BuildLeftoversScoped(packageDir);
    InVendorRubyAppend(packageDir, RemoveByExtension(RubyVendorPath(packageDir), SourceExtensions),
                       BuildLeftoverRules(packageDir));
  }

  lemma StripJavaScoped(packageDir: string)
    ensures InVendorRuby(packageDir, StripJavaRules(packageDir))
  {
    GemGlobsUnder(packageDir);
  }

  lemma StripGitScoped(packageDir: string)
    ensures InVendorRuby(packageDir, StripGitRules(packageDir))
  {
    GemGlobsUnder(packageDir);
  }

  // ---------------------------------------------------------------------
  // Native gems

  /** `hash[name] = version` on an insertion-ordered Hash held as its pairs: an existing key keeps its place. */
  function Store(h: seq<(string, string)>, name: string, version: string): seq<(string, string)>
    decreases |h|
  {
    if |h| == 0 then [(name, version)]
    else if h[0].0 == name then [(name, version)] + h[1..]
    else [h[0]] + Store(h[1..], name, version)
  }

  /** `hash[name]` */
  function Get(h: seq<(string, string)>, name: string): Option<string>
    decreases |h|
  {
    if |h| == 0 then None
    else if h[0].0 == name then Some(h[0].1)
    else Get(h[1..], name)
  }

  predicate UniqueNames(h: seq<(string, string)>) {
    forall i, j :: 0 <= i < j < |h| ==> h[i].0 != h[j].0
  }

  function Names(h: seq<(string, string)>): (r: seq<string>)
    ensures |r| == |h| && forall i :: 0 <= i < |h| ==> r[i] == h[i].0
  {
    seq(|h|, i requires 0 <= i < |h| => h[i].0)
  }

  lemma NamesCons(p: (string, string), h: seq<(string, string)>)
    ensures Names([p] + h) == [p.0] + Names(h)
  {
  }

  /** Storing a key that is already present replaces its value in place; a new key goes at the end. */
  lemma {:induction false} StoreNames(h: seq<(string, string)>, name: string, version: string)
    ensures Names(Store(h, name, version)) == if name in Names(h) then Names(h) else Names(h) + [name]
    decreases |h|
  {
    if |h| > 0 {
      assert h == [h[0]] + h[1..];
      NamesCons(h[0], h[1..]);
      if h[0].0 == name {
        NamesCons((name, version), h[1..]);
      } else {
        StoreNames(h[1..], name, version);
        NamesCons(h[0], Store(h[1..], name, version));
      }
    }
  }

  lemma {:induction false} StoreGet(h: seq<(string, string)>, name: string, version: string, m: string)
    ensures Get(Store(h, name, version), m) == if m == name then Some(version) else Get(h, m)
    decreases |h|
  {
    if |h| > 0 && h[0].0 != name {
      StoreGet(h[1..], name, version, m);
    }
  }

  lemma UniqueNamesOf(h: seq<(string, string)>)
    ensures UniqueNames(h) <==> forall i, j :: 0 <= i < j < |h| ==> Names(h)[i] != Names(h)[j]
  {
    var n := Names(h);
    if forall i, j :: 0 <= i < j < |h| ==> n[i] != n[j] {
      forall i, j | 0 <= i < j < |h| ensures h[i].0 != h[j].0 {
        assert n[i] != n[j];
      }
    }
  }

  lemma StoreUnique(h: seq<(string, string)>, name: string, version: string)
    requires UniqueNames(h)
    ensures UniqueNames(Store(h, name, version))
  {
    var s := Store(h, name, version);
    StoreNames(h, name, version);
    UniqueNamesOf(h);
    UniqueNamesOf(s);
  }

  /** `find_native_gems`: the gems with extensions, by name, each with the last version listed. */
  function FindNativeGems(specs: seq<GemSpec>): seq<(string, string)>
    decreases |specs|
  {
    if |specs| == 0 then []
    else
      var h := FindNativeGems(specs[..|specs| - 1]);
      var s := specs[|specs| - 1];
      if |s.extensions| > 0 then Store(h, s.name, s.version) else h
  }

  /** The reference: the version of the last spec named `name` that has extensions. */
  function LastNativeVersion(specs: seq<GemSpec>, name: string): Option<string>
    decreases |specs|
  {
    if |specs| == 0 then None
    else
      var s := specs[|specs| - 1];
      if |s.extensions| > 0 && s.name == name then Some(s.version)
      else LastNativeVersion(specs[..|specs| - 1], name)
  }

  /**
   * Each gem with extensions appears once, with the version of its last
   * spec; gems without extensions do not appear at all.
   */
  lemma {:induction false} FindNativeGemsSpec(specs: seq<GemSpec>)
    ensures UniqueNames(FindNativeGems(specs))
    ensures forall name :: Get(FindNativeGems(specs), name) == LastNativeVersion(specs, name)
    decreases |specs|
  {
    if |specs| > 0 {
      var init := specs[..|specs| - 1];
      FindNativeGemsSpec(init);
      var s := specs[|specs| - 1];
      if |s.extensions| > 0 {
        var h := FindNativeGems(init);
        StoreUnique(h, s.name, s.version);
        forall name ensures Get(FindNativeGems(specs), name) == LastNativeVersion(specs, name) {
          StoreGet(h, s.name, s.version, name);
        }
      }
    }
  }

  /** `extract_native_gems`: for each gem, fetch its archive, then unpack it into `lib/vendor/ruby`. */
  function NativeGemActions(f: F.Fetcher, packageDir: string, gems: seq<(string, string)>): (r: seq<Action>)
    ensures |r| == 2 * |gems|
    decreases |gems|
  {
    if |gems| == 0 then []
    else
      var (name, version) := gems[0];
      [ FetchGem(f, name, version),
        Sh("tar -xzf " + F.NativeGemLocalPath(f, name, version) + " -C " + RubyVendorPath(packageDir), map[]) ]
      + NativeGemActions(f, packageDir, gems[1..])
  }

  lemma {:induction false} NativeGemActionsPairs(f: F.Fetcher, packageDir: string, gems: seq<(string, string)>)
    ensures var r := NativeGemActions(f, packageDir, gems);
      forall k :: 0 <= k < |gems| ==>
        r[2 * k] == FetchGem(f, gems[k].0, gems[k].1)
        && r[2 * k + 1] == Sh("tar -xzf " + F.NativeGemLocalPath(f, gems[k].0, gems[k].1) + " -C " + RubyVendorPath(packageDir), map[])
    decreases |gems|
  {
    if |gems| > 0 {
      NativeGemActionsPairs(f, packageDir, gems[1..]);
      var r := NativeGemActions(f, packageDir, gems);
      var rest := NativeGemActions(f, packageDir, gems[1..]);
      forall k | 1 <= k < |gems|
        ensures r[2 * k] == rest[2 * (k - 1)] && r[2 * k + 1] == rest[2 * (k - 1) + 1]
      {
      }
    }
  }

  // ---------------------------------------------------------------------
  // The installer

  datatype Step =
    | Bundle | ExtractRuby | ExtractNativeGems
    | StripTests | StripDocs | StripLeftovers | StripJava | StripGit | StripEmptyDirs

  /** The order `execute` runs its steps in. */
  const Steps: seq<Step> := [Bundle, ExtractRuby, ExtractNativeGems,
                             StripTests, StripDocs, StripLeftovers, StripJava, StripGit, StripEmptyDirs]

  /** The build command an option names; only a string can be run. */
  predicate BuildCommandOption(v: Value) {
    !Truthy(v) || v.Str?
  }

  /** What an installer is configured with: the instance variables `execute` reads. */
  datatype Settings = Settings(
    packageDir: string,
    fetcher: F.Fetcher,
    withoutGroups: seq<string>,
    bundleEnv: map<string, string>,
    buildCommand: Option<string>)

  /** `bundle_gems`, without the copy of the Gemfiles (see README). */
  function BundleActions(s: Settings): (r: seq<Action>)
    ensures |r| == if s.buildCommand.Some? then 8 else 7
    ensures r[0] == MakeDir(VendorPath(s.packageDir))
    ensures r[1] == Sh(BundlerCommand(s.withoutGroups), s.bundleEnv)
    ensures s.buildCommand.Some? ==> r[2] == Sh(s.buildCommand.value, s.bundleEnv)
    ensures r[|r| - 3..] == RuleActions(s.packageDir, RemoveByExtension("lib/vendor/ruby/*/gems", CompiledExtensions))
  {
    [MakeDir(VendorPath(s.packageDir)), Sh(BundlerCommand(s.withoutGroups), s.bundleEnv)]
      + (match s.buildCommand case Some(c) => [Sh(c, s.bundleEnv)] case None => [])
      + [ForceRemove("lib/vendor/*/*/cache/*"), ForceRemove("lib/vendor/ruby/*/extensions/*")]
      + RuleActions(s.packageDir, RemoveByExtension("lib/vendor/ruby/*/gems", CompiledExtensions))
  }

  /** `extract_ruby` */
  function ExtractRubyActions(s: Settings): seq<Action> {
    [ MakeDir(RubyPath(s.packageDir)),
      MakeDir(RubyVendorPath(s.packageDir)),
      FetchRuby(s.fetcher),
      Sh("tar -xzf " + F.RubyLocalPath(s.fetcher) + " -C " + RubyPath(s.packageDir), map[]) ]
  }

  function StepRules(s: Settings, step: Step): seq<PruneRule> {
    match step
    case StripTests => StripTestsRules()
    case StripDocs => StripDocsRules()
    case StripLeftovers => StripLeftoversRules(s.packageDir)
    case StripJava => StripJavaRules(s.packageDir)
    case StripGit => StripGitRules(s.packageDir)
    case StripEmptyDirs => StripEmptyDirsRules(s.packageDir)
    case _ => []
  }

  /** What each step of `execute` does; the native gems are those the installed specs name. */
  function StepActions(s: Settings, step: Step, specs: seq<GemSpec>): seq<Action> {
    match step
    case Bundle => BundleActions(s)
    case ExtractRuby => ExtractRubyActions(s)
    case ExtractNativeGems => NativeGemActions(s.fetcher, s.packageDir, FindNativeGems(specs))
    case _ => RuleActions(s.packageDir, StepRules(s, step))
  }

  /** The last four pruning steps, which work through `find ... || true`, never raise and leave the tracked tree alone. */
  lemma StripStepsNeverFail(host: Host, s: Settings, files: map<string, FileEntry>, dirs: set<string>, step: Step)
    requires step in {StripLeftovers, StripJava, StripGit, StripEmptyDirs}
    ensures var o := Performed(host, files, dirs, StepActions(s, step, host.gemspecs));
      o.result == Completed && o.files == files && o.dirs == dirs
  {
    PruneStepHarmless(s, step, host.gemspecs);
    HarmlessNeverFail(host, files, dirs, StepActions(s, step, host.gemspecs));
  }

  /**
   * `strip_tests` and `strip_docs` are `rm_r` calls only: they leave the
   * tracked tree alone, and each completes exactly when every one of its
   * removals does.
   */
  lemma StripFromGemsOutcome(host: Host, s: Settings, files: map<string, FileEntry>, dirs: set<string>, step: Step)
    requires step in {StripTests, StripDocs}
    ensures var actions := StepActions(s, step, host.gemspecs);
      var o := Performed(host, files, dirs, actions);
      && (forall i :: 0 <= i < |actions| ==> actions[i].Remove?)
      && o.files == files && o.dirs == dirs
      && (o.result.Completed? <==> forall i :: 0 <= i < |actions| ==> host.removal(actions[i].pattern).Completed?)
  {
    var actions := StepActions(s, step, host.gemspecs);
    var rules := StepRules(s, step);
    assert actions == RuleActions(s.packageDir, rules);
    assert forall i :: 0 <= i < |actions| ==> actions[i].Remove? by {
      forall i | 0 <= i < |actions|
        ensures actions[i].Remove?
      {
        assert rules[i].RemoveFromGems?;
      }
    }
    QuietRun(host, files, dirs, actions);
  }

  /** The actions of the first `k` steps of `execute`, in order. */
  function ActionsUpTo(s: Settings, k: nat, specs: seq<GemSpec>): seq<Action>
    requires k <= |Steps|
    decreases k
  {
    if k == 0 then [] else ActionsUpTo(s, k - 1, specs) + StepActions(s, Steps[k - 1], specs)
  }

  /** Once a step has raised, the later steps add nothing: the run ends there. */
  lemma {:induction false} ErrorEndsRun(host: Host, s: Settings, files: map<string, FileEntry>, dirs: set<string>, k: nat, n: nat)
    requires k <= n <= |Steps|
    requires Performed(host, files, dirs, ActionsUpTo(s, k, host.gemspecs)).result.Raised?
    ensures Performed(host, files, dirs, ActionsUpTo(s, n, host.gemspecs)) == Performed(host, files, dirs, ActionsUpTo(s, k, host.gemspecs))
    decreases n
  {
    if n > k {
      ErrorEndsRun(host, s, files, dirs, k, n - 1);
      PerformedAppend(host, files, dirs, ActionsUpTo(s, n - 1, host.gemspecs), StepActions(s, Steps[n - 1], host.gemspecs));
    }
  }

  /**
   * The pruning steps after `strip_docs` cannot raise, so a run of `execute`
   * that raises has done so in bundling, one of the two extractions,
   * `strip_tests` or `strip_docs`, and its outcome is that of the first five
   * steps.
   */
  lemma OnlyFirstStepsRaise(host: Host, s: Settings, files: map<string, FileEntry>, dirs: set<string>, n: nat)
    requires 5 <= n <= |Steps|
    ensures var o := Performed(host, files, dirs, ActionsUpTo(s, n, host.gemspecs));
      o.result.Raised? ==> o == Performed(host, files, dirs, ActionsUpTo(s, 5, host.gemspecs))
  {
    var a := ActionsUpTo(s, 5, host.gemspecs);
    var b := PruneActions(s, n, host.gemspecs);
    PruningTail(s, n, host.gemspecs);
    PruningHarmless(s, n, host.gemspecs);
    var o := Performed(host, files, dirs, a);
    HarmlessNeverFail(host, o.files, o.dirs, b);
    CompletingTailKeepsRaise(host, files, dirs, a, b);
  }

  /** When `b` cannot raise after `a`, a run of `a + b` that raises is the run of `a`. */
  lemma CompletingTailKeepsRaise(host: Host, files: map<string, FileEntry>, dirs: set<string>, a: seq<Action>, b: seq<Action>)
    requires var x := Performed(host, files, dirs, a);
      x.result.Completed? ==> Performed(host, x.files, x.dirs, b).result.Completed?
    ensures Performed(host, files, dirs, a + b).result.Raised? ==> Performed(host, files, dirs, a + b) == Performed(host, files, dirs, a)
  {
    PerformedAppend(host, files, dirs, a, b);
  }

  /** The actions of the steps after `strip_docs` among the first `n`. */
  function PruneActions(s: Settings, n: nat, specs: seq<GemSpec>): seq<Action>
    requires 5 <= n <= |Steps|
    decreases n
  {
    if n == 5 then [] else PruneActions(s, n - 1, specs) + StepActions(s, Steps[n - 1], specs)
  }

  predicate AllHarmless(actions: seq<Action>) {
    forall j :: 0 <= j < |actions| ==> Harmless(actions[j])
  }

  lemma HarmlessAppend(a: seq<Action>, b: seq<Action>)
    requires AllHarmless(a) && AllHarmless(b)
    ensures AllHarmless(a + b)
  {
    forall j | 0 <= j < |a + b|
      ensures Harmless((a + b)[j])
    {
      if j >= |a| {
        assert (a + b)[j] == b[j - |a|];
      }
    }
  }

  /** The steps after `strip_docs` remove nothing from the gems with `rm_r`, so every action of theirs is harmless. */
  lemma PruneStepHarmless(s: Settings, step: Step, specs: seq<GemSpec>)
    requires step in {StripLeftovers, StripJava, StripGit, StripEmptyDirs}
    ensures AllHarmless(StepActions(s, step, specs))
  {
    var rules := StepRules(s, step);
    assert StepActions(s, step, specs) == RuleActions(s.packageDir, rules);
    if step == StripLeftovers {
      LeftoversFindOnly(s.packageDir);
    }
    assert FindOnly(rules);
  }

  /** No rule of the list is a gem removal. */
  predicate FindOnly(rules: seq<PruneRule>) {
    forall i :: 0 <= i < |rules| ==> !rules[i].RemoveFromGems?
  }

  /** `strip_leftovers` works through `find` alone. */
  lemma LeftoversFindOnly(packageDir: string)
    ensures FindOnly(StripLeftoversRules(packageDir))
  {
    var a := RemoveByExtension(RubyVendorPath(packageDir), SourceExtensions);
    var b := BuildLeftoverRules(packageDir);
    var rules: seq<PruneRule> := a + b;
    forall i | 0 <= i < |rules|
      ensures !rules[i].RemoveFromGems?
    {
      if i >= |a| {
        assert rules[i] == b[i - |a|];
      }
    }
  }

  lemma LaterStepsPrune(k: nat)
    requires 5 <= k < |Steps|
    ensures Steps[k] in {StripLeftovers, StripJava, StripGit, StripEmptyDirs}
  {
  }

  /** After the first five steps, `execute` only runs the harmless pruning steps. */
  lemma {:induction false} PruningTail(s: Settings, n: nat, specs: seq<GemSpec>)
    requires 5 <= n <= |Steps|
    ensures ActionsUpTo(s, n, specs) == ActionsUpTo(s, 5, specs) + PruneActions(s, n, specs)
    decreases n
  {
    if n > 5 {
      PruningTail(s, n - 1, specs);
      AppendAssoc(ActionsUpTo(s, 5, specs), PruneActions(s, n - 1, specs), StepActions(s, Steps[n - 1], specs));
    }
  }

  /** The pruning after `strip_docs` is harmless. */
  lemma {:induction false} PruningHarmless(s: Settings, n: nat, specs: seq<GemSpec>)
    requires 5 <= n <= |Steps|
    ensures AllHarmless(PruneActions(s, n, specs))
    decreases n
  {
    if n > 5 {
      PruningHarmless(s, n - 1, specs);
      LaterStepsPrune(n - 1);
      PruneStepHarmless(s, Steps[n - 1], specs);
      HarmlessAppend(PruneActions(s, n - 1, specs), StepActions(s, Steps[n - 1], specs));
    }
  }

  /** What `Installer.new(package_dir, fetcher, options)` is configured with. */
  function SettingsOf(packageDir: string, fetcher: F.Fetcher, options: Hash): (s: Settings)
    requires Lookup(options, WithoutGroups).Strs?
    requires BuildCommandOption(Lookup(options, BuildCommand))
    ensures s.withoutGroups == Lookup(options, WithoutGroups).items
    ensures s.bundleEnv == BundleEnv(Truthy(Lookup(options, BundleIgnoreConfig)))
    ensures Truthy(Lookup(options, BuildCommand)) <==> s.buildCommand.Some?
    ensures s.buildCommand.Some? ==> Lookup(options, BuildCommand) == Str(s.buildCommand.value)
  {
    Settings(packageDir, fetcher, Lookup(options, WithoutGroups).items,
             BundleEnv(Truthy(Lookup(options, BundleIgnoreConfig))),
             if Truthy(Lookup(options, BuildCommand)) then Some(StrOf(options, BuildCommand)) else None)
  }

  class Installer {
    const packageDir: string
    const fetcher: F.Fetcher
    const withoutGroups: seq<string>
    const bundleEnv: map<string, string>
    const buildCommand: Option<string>

    /** `Installer.new(package_dir, fetcher, options)` */
    constructor (packageDir: string, fetcher: F.Fetcher, options: Hash)
      requires Lookup(options, WithoutGroups).Strs?
      requires BuildCommandOption(Lookup(options, BuildCommand))
      ensures Configuration() == SettingsOf(packageDir, fetcher, options)
    {
      var s := SettingsOf(packageDir, fetcher, options);
      this.packageDir := packageDir;
      this.fetcher := fetcher;
      withoutGroups := s.withoutGroups;
      bundleEnv := s.bundleEnv;
      buildCommand := s.buildCommand;
    }

    function Configuration(): Settings {
      Settings(packageDir, fetcher, withoutGroups, bundleEnv, buildCommand)
    }

    /** Runs step `k` of `execute` after the `k` before it have completed. */
    method RunStep(host: Host, k: nat, ghost files: map<string, FileEntry>, ghost dirs: set<string>,
                   ghost log: seq<Event>) returns (r: Status)
      requires k < |Steps|
      requires Did(host, files, dirs, log, ActionsUpTo(Configuration(), k, host.gemspecs), Completed)
      modifies host
      ensures Did(host, files, dirs, log, ActionsUpTo(Configuration(), k + 1, host.gemspecs), r)
    {
      var s := Configuration();
      var actions := StepActions(s, Steps[k], host.gemspecs);
      ghost var before := Performed(host, files, dirs, ActionsUpTo(s, k, host.gemspecs));
      r := Perform(host, actions);
      ghost var after := Performed(host, before.files, before.dirs, actions);
      PerformedAppend(host, files, dirs, ActionsUpTo(s, k, host.gemspecs), actions);
      AppendAssoc(log, before.events, after.events);
    }

    /** Runs the steps of `execute` from step `k` on, once the `k` before it have completed. */
    method RunFrom(host: Host, k: nat, ghost files: map<string, FileEntry>, ghost dirs: set<string>,
                   ghost log: seq<Event>) returns (r: Status)
      requires k <= |Steps|
      requires Did(host, files, dirs, log, ActionsUpTo(Configuration(), k, host.gemspecs), Completed)
      modifies host
      ensures Did(host, files, dirs, log, ActionsUpTo(Configuration(), |Steps|, host.gemspecs), r)
      decreases |Steps| - k
    {
      if k == |Steps| {
        return Completed;
      }
      r := RunStep(host, k, files, dirs, log);
      if r.Raised? {
        ErrorEndsRun(host, Configuration(), files, dirs, k + 1, |Steps|);
        return;
      }
      r := RunFrom(host, k + 1, files, dirs, log);
    }

    /**
     * `execute`: the nine steps in their fixed order; the first that raises
     * ends the run, and only bundling, the two extractions, `strip_tests` and
     * `strip_docs` can raise.
     */
    method Execute(host: Host) returns (r: Status)
      modifies host
      ensures Did(host, old(host.files), old(host.dirs), old(host.log), ActionsUpTo(Configuration(), |Steps|, host.gemspecs), r)
      ensures r.Raised? ==> r == Performed(host, old(host.files), old(host.dirs), ActionsUpTo(Configuration(), 5, host.gemspecs)).result
    {
      r := RunFrom(host, 0, host.files, host.dirs, host.log);
      OnlyFirstStepsRaise(host, Configuration(), old(host.files), old(host.dirs), |Steps|);
    }
  }
}
