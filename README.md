# tara, modelled in Dafny

tara packages a Ruby application as a self-contained archive: the
application's source and executables, a Traveling Ruby runtime, the bundled
gems and prebuilt native gems, plus shell shims that start each executable
with that runtime. This project models the core of `Tara::Archive`,
`Tara::Archiver`, `Tara::Fetcher`, `Tara::Installer`, the shims
(`Tara::Shim`, `ExecShim`, `GemShim`), `Tara::Executable` and `Tara::Shell`,
and proves what they do.

Modules:

- `Hosts`: the machine the tool runs on. A `Host` class holds the file tree
  the tool touches (`files`: path to contents and mode; `dirs`) and a log of
  every request, command and file operation, in order. The release server,
  the shell, directory globbing, the gem specifications `bundle install`
  leaves behind, what `tar -czf` writes and whether an `rm_r` raises are
  given as oracles. `Applied`,
  `AppliedAll`, `Then` and `Finally` are the reference semantics of file
  operations, sequencing and `ensure`.
- `Options`: Ruby's option hashes (`nil`/`false` are falsy), `||=` and
  `Hash#merge`; `ConfigHash` is a hash that callers share and mutate.
- `Shell`: `Shell.exec` and the `exec_with_env` the installer calls.
- `Shim`, `Executable`: the launcher scripts, including the heredoc's
  `gsub(/^\s+/, '')`.
- `Fetcher`: cache paths and URIs of artifacts; `fetch` with its redirect
  limit of ten.
- `Installer`: the nine steps of `execute` as a list of actions; its pruning
  passes as a table of rules.
- `Archive`: the defaults of `initialize`, and `create` as a block of seven
  steps inside `Dir.mktmpdir`. These are: make the package directory, copy
  the source, copy the executables, create the gem shims, set up the
  fetcher, install the dependencies, create the archive.
- `ArchiveFacts`: what `create` leaves behind, and the finding below.
- `Archiver`: the archiver with its `:metadata`, and `create(options)`.

Behaviour worth knowing, all proved in the model:

- An executable at the top level of the application (no `/` in its relative
  path) has its package copy overwritten by its own shim, because the shim
  goes to `package/<basename>`. See `ArchiveFacts.ExecutableCopyIsExecutable`.
- A relative `build_dir` is resolved inside the package directory, because
  `create_archive` runs under `Dir.chdir(tmp_dir)`. The archive is then
  removed with that directory, although `create` returns its path. See
  `ArchiveFacts.RelativeBuildDirRemoved`.
- `copy_file` on a match that is a directory creates only the directory's
  parent in the package; nothing below the directory is copied. Whether a
  match is a directory is asked of its relative path, so it is answered from
  the working directory, not from the application directory.
- Two native gems can share a cache file (`a-b` 1 and `a` b-1), since names
  and versions are joined with `-`. See `Fetcher.GemPathsCollide`.
- Paths are compared as text: `..` and symbolic links are not resolved. `File.join` is modelled with its handling of separators at the seam.

## Model

| member | source | states |
|---|---|---|
| Options.OrAssign | lib/tara/archive.rb:60-70 | `h[k] \|\|= v` replaces the entry only when it is missing, `nil` or `false`; every other key keeps its value and no other key is added |
| Options.Merge | lib/tara/archiver.rb:55 | `merge` has the keys of both hashes; an option wins over the configuration on a shared key; other keys keep the configuration's value |
| Shell.ExecOutcome | lib/tara/shell.rb:6-13 | a command succeeds exactly when its exit status is 0 and then yields its output; otherwise it raises `ExecError` with "Command `c` failed with output: o" |
| Shell.Exec | lib/tara/shell.rb:6-13 | runs the command once with no extra environment, logs it, leaves the tracked tree alone, and returns or raises as `ExecOutcome` says |
| Shell.ExecWithEnv | lib/tara/installer.rb:49-51 | the same, with the given environment variables |
| Shell.OrTrueNeverRaises | lib/tara/installer.rb:131-141 | a command ending in `\|\| true` never raises, whatever it prints |
| Shim.Write | lib/tara/shim.rb:10-12 | the IO receives exactly the rendered script |
| Shim.RenderShape | lib/tara/shim.rb:16-25 | the script is the five fixed header lines, then the `exec` of the bundled Ruby with the command, minus the whitespace at the start of the command's own lines |
| Shim.StripIndentedLines | lib/tara/shim.rb:17 | the heredoc's `gsub(/^\s+/, '')` removes exactly the indentation of each line and nothing else |
| Shim.StripLeavesNoIndent | lib/tara/shim.rb:17 | after the `gsub`, no line starts with whitespace |
| Shim.RenderNoIndent | lib/tara/shim.rb:16-25 | no line of a rendered script starts with whitespace |
| Shim.RenderLines | lib/tara/shim.rb:16-25 | a one-line command is kept exactly, and the script is its six lines, each ended by a line break |
| Shim.RenderSixLines | lib/tara/shim.rb:16-25 | split at line breaks, a script with a one-line command is exactly six lines and an empty tail |
| Shim.RenderEndsWithNewline | lib/tara/shim.rb:10-25 | the script ends in a line break, so `puts` writes it unchanged |
| Shim.RenderEndsWithCommand | lib/tara/shim.rb:21 | the script of a one-line command ends by running exactly that command |
| Shim.ExecShimForwardsArguments | lib/tara/shim.rb:29-33 | an `ExecShim` runs `"$SELF_DIR/<dirpath>/<name>"` and forwards every argument with `"$@"` |
| Shim.GemShimForwardsArguments | lib/tara/shim.rb:36-40 | a `GemShim` loads `Gem.bin_path(gem, exec)` and forwards every argument after `--` |
| Executable.Write | lib/tara/executable.rb:9-11 | the IO receives exactly the launcher script |
| Executable.SameAsExecShim | lib/tara/executable.rb:15-24 | the launcher of `bin/<name>` is, character for character, the script of `ExecShim("bin", name)` |
| Executable.ScriptLines | lib/tara/executable.rb:15-24 | for a name without a line break, the script is the five header lines and the `exec` of `bin/<name>` with every argument forwarded; no line is indented |
| Hosts.Host.Get | lib/tara/fetcher.rb:46-47 | a GET returns the server's response for the URI and logs one request; the tree is unchanged |
| Hosts.Host.MkdirP | lib/tara/fetcher.rb:18 | `mkdir_p` makes the directory and every ancestor it names. It fails with `EEXIST`, naming the shallowest of them that is a regular file, and then adds nothing; files are never changed |
| Hosts.Host.Copy | lib/tara/archive.rb:157 | `cp` copies into a directory target under the source's basename. Errors: `ENOENT` for a missing source, `EISDIR` for a directory destination, `ENOENT` for a missing parent, and `EISDIR` for a directory source, which leaves an empty file behind. Otherwise the destination gets the contents and keeps its own mode if it existed; a new file gets the source's mode under umask 022 |
| Hosts.Host.Write | lib/tara/archive.rb:164 | writing a path replaces its contents; an existing file keeps its mode, a new one gets 0644; a directory fails with `EISDIR`, a missing parent directory with `ENOENT`, and then nothing changes |
| Hosts.Host.Chmod | lib/tara/archive.rb:165 | `chmod` sets the mode of an existing file, keeps its contents, and fails with `ENOENT` on a missing path |
| Hosts.Host.RemoveMatching | lib/tara/installer.rb:126-127 | `rm_r` of a glob's matches logs the removal, leaves the tracked tree alone, and raises exactly when the host says a match cannot be removed |
| Hosts.Umasked | lib/tara/archive.rb:157 | the mode a new file gets under umask 022: the group- and other-write bits are cleared, and every other bit (1, 4, 8, 32 and up) is kept, so the result is `mode & ~022` |
| Hosts.UmaskedModes | lib/tara/archive.rb:157 | 0644 and 0755 pass the umask unchanged, 0666 becomes 0644 |
| Hosts.Blocker | lib/tara/fetcher.rb:18 | what stops `mkdir_p`: none exactly when no directory it would make is a regular file, otherwise the shallowest that is |
| Hosts.Host.RemoveEntry | lib/tara/archive.rb:87-99 | the directory `Dir.mktmpdir` made is removed with everything below it |
| Hosts.Host.ApplyAll | lib/tara/archive.rb:147-173 | file operations run in order and stop at the first that raises, as `AppliedAll` says |
| Hosts.AppliedAllStops | lib/tara/archive.rb:147-159 | once an operation has raised, the later ones do nothing |
| Hosts.Finally | lib/tara/archive.rb:87-99 | `ensure` semantics: the cleanup runs whatever happened; an error the cleanup raises replaces the block's, otherwise the block's result stands |
| Hosts.PutsText | lib/tara/shim.rb:11 | `puts` writes the text and then a line break, unless the text already ends in one |
| Hosts.Stream.Puts | lib/tara/shim.rb:11 | the stream grows by exactly what `puts` writes |
| Fetcher.NewFetcherOptions | lib/tara/fetcher.rb:8-15 | the directory, target and Traveling Ruby version are kept. A missing or falsy option falls back to the running Ruby's version or the public release URL; a string option is used as given |
| Fetcher.Setup | lib/tara/fetcher.rb:17-20 | `setup` makes the download directory and its ancestors and returns the fetcher. It raises `EEXIST` exactly when one of them is a regular file, naming the shallowest, and then adds no directory |
| Fetcher.Fetch | lib/tara/fetcher.rb:43-70 | the host's tree, log and result are exactly those of the reference `Fetched` |
| Fetcher.FetchRuby | lib/tara/fetcher.rb:22-25 | fetches the runtime's URI into the runtime's cache path with the limit of ten redirects |
| Fetcher.FetchNativeGem | lib/tara/fetcher.rb:27-31 | fetches the gem's URI into the gem's cache path with the limit of ten redirects |
| Fetcher.FollowChain | lib/tara/fetcher.rb:43-70 | a fetch sends at most `limit + 1` requests, starting at the URI. Each request but the last was redirected to the next. The last response decides the result. A final redirect means the budget was used up |
| Fetcher.FollowOfChain | lib/tara/fetcher.rb:55-60 | a chain of that shape is the only one: it determines the fetch completely |
| Fetcher.RedirectLoopExhausts | lib/tara/fetcher.rb:56-59 | a URI that redirects to itself is requested eleven times, and the fetch raises `TooManyRedirectsError` naming it |
| Fetcher.FetchedEffect | lib/tara/fetcher.rb:43-70 | `fetch` returns the cache path or raises. An existing cache path means no request and no change. Otherwise it succeeds exactly when the chain ends in success and the cache directory exists, and the cache file then holds that body. A failed chain raises its own error; a missing directory raises `ENOENT`. A failure writes nothing, and at most `limit + 2` events happen |
| Fetcher.CacheParentIsDownloadDir | lib/tara/fetcher.rb:22-31 | once the download directory exists, both cache paths can be written: each lies directly in it |
| Fetcher.FetchIdempotent | lib/tara/fetcher.rb:44 | after a successful fetch, fetching the same artifact again sends nothing and changes nothing |
| Fetcher.RubyCacheInDownloadDir | lib/tara/fetcher.rb:23 | the runtime's cache file lies in the download directory |
| Fetcher.GemCacheInDownloadDir | lib/tara/fetcher.rb:29 | every native gem's cache file lies in the download directory |
| Fetcher.RubyAndGemPathsDistinct | lib/tara/fetcher.rb:22-29 | the runtime's cache file never coincides with a native gem's |
| Fetcher.GemPathsInjective | lib/tara/fetcher.rb:29 | two native gems share a cache file only if they have the same name and version, when versions contain no dash |
| Fetcher.NameVersionInjective | lib/tara/fetcher.rb:29 | `<name>-<version>` determines both parts when the version has no dash |
| Fetcher.GemPathsCollide | lib/tara/fetcher.rb:29 | without that proviso, `a-b` 1 and `a` b-1 share a cache file |
| Text.DecimalString | lib/tara/fetcher.rb:64 | the status code in the error message is a non-empty string of decimal digits |
| Text.DecimalRoundTrip | lib/tara/fetcher.rb:64 | reading those digits back gives the status code |
| Installer.Installer.constructor | lib/tara/installer.rb:6-14 | the installer is configured as `SettingsOf` says |
| Installer.SettingsOf | lib/tara/installer.rb:6-14 | `without_groups` is taken as given. The bundle environment follows `bundle_ignore_config`. There is a build command exactly when the option is set, and it is the option's string |
| Installer.BundleEnv | lib/tara/installer.rb:30-34 | `BUNDLE_GEMFILE` is `lib/vendor/Gemfile`; `BUNDLE_IGNORE_CONFIG` is `1` exactly when asked for; nothing else is set |
| Installer.BundlerCommandWords | lib/tara/installer.rb:36-42 | the command is `bundle install` and its fixed options. When there are groups, `--without` and each group follow as words of their own |
| Installer.BundleActions | lib/tara/installer.rb:44-64 | `bundle_gems` creates `lib/vendor`, runs the bundler command, then the build command if any, both with the bundle environment, and ends with removing compiled extensions |
| Installer.LayoutComponents | lib/tara/installer.rb:143-165 | every layout path is a clean relative directory, and the gem directories lie below `lib/vendor/ruby` |
| Installer.LayoutJoinedStepwise | lib/tara/installer.rb:143-165 | each layout path equals the source's chain of `Pathname#join` calls |
| Installer.FindNativeGemsSpec | lib/tara/installer.rb:81-88 | each gem with extensions appears once, with the version of its last spec; gems without extensions do not appear |
| Installer.StoreNames | lib/tara/installer.rb:85-87 | storing an existing gem name keeps the order of names; a new name goes last |
| Installer.StoreGet | lib/tara/installer.rb:85-87 | after storing, the name maps to the new version and every other name to what it had |
| Installer.StoreUnique | lib/tara/installer.rb:85-87 | storing keeps names unique |
| Installer.NativeGemActions | lib/tara/installer.rb:73-79 | two actions per native gem |
| Installer.NativeGemActionsPairs | lib/tara/installer.rb:73-79 | for each gem in order: fetch its archive, then unpack that cache file into `lib/vendor/ruby` |
| Installer.StripFromGems | lib/tara/installer.rb:124-129 | two removals per thing |
| Installer.StripFromGemsCovers | lib/tara/installer.rb:124-129 | each thing is removed from the installed gems and then from the git checkouts, in the order given |
| Installer.RemoveByExtension | lib/tara/installer.rb:107-109 | one `find_and_remove_files` per extension, with the glob `*.<ext>` |
| Installer.RuleAction | lib/tara/installer.rb:124-141 | no pruning pass changes a tracked file. The `find ... \|\| true` passes cannot raise; a gem removal is exactly the pass that is not harmless, since `rm_r` can raise |
| Installer.QuietRun | lib/tara/installer.rb:124-141 | pruning passes leave the tracked tree alone; they complete exactly when every `rm_r` among them does, and a raised error is one of those removals' |
| Installer.StripFromGemsOutcome | lib/tara/installer.rb:98-104 | `strip_tests` and `strip_docs` are `rm_r` calls only: the tracked tree stays, and the step completes exactly when every removal does |
| Installer.GemRemovalsScoped | lib/tara/installer.rb:126-127 | both removals of a relative thing stay inside `lib/vendor/ruby` |
| Installer.StripFromGemsScoped | lib/tara/installer.rb:124-129 | `strip_from_gems` removes nothing outside `lib/vendor/ruby` |
| Installer.StripTestsScoped | lib/tara/installer.rb:98-100 | `strip_tests` works only inside `lib/vendor/ruby` |
| Installer.StripDocsScoped | lib/tara/installer.rb:102-104 | `strip_docs` works only inside `lib/vendor/ruby` |
| Installer.ByExtensionScoped | lib/tara/installer.rb:107-109 | removing source files by extension stays inside `lib/vendor/ruby` |
| Installer.BuildLeftoversScoped | lib/tara/installer.rb:110-112 | removing `extconf.rb`, `Makefile` and `tmp` stays inside `lib/vendor/ruby` |
| Installer.StripLeftoversScoped | lib/tara/installer.rb:106-113 | `strip_leftovers` works only inside `lib/vendor/ruby` |
| Installer.StripJavaScoped | lib/tara/installer.rb:115-117 | `strip_java_files` works only inside `lib/vendor/ruby` |
| Installer.StripGitScoped | lib/tara/installer.rb:119-122 | `strip_git_files` works only inside `lib/vendor/ruby` |
| Installer.GemGlobsUnder | lib/tara/installer.rb:159-165 | both gem globs lie below `lib/vendor/ruby` |
| Installer.RemoveFromGemsBelow | lib/tara/installer.rb:126-127 | a gem removal of a relative thing lies below `lib/vendor/ruby` |
| Installer.GemExtDirBelow | lib/tara/installer.rb:111-112 | the gems' `ext` directories lie below `lib/vendor/ruby` |
| Installer.RunAction | lib/tara/installer.rb:44-141 | one action changes the host as `ActionOutcome` says |
| Installer.Perform | lib/tara/installer.rb:16-26 | actions run in order and stop at the first that raises, as `Performed` says |
| Installer.PerformedAppend | lib/tara/installer.rb:16-26 | running `a` and then `b` is running `a + b`; `b` never starts when `a` raised |
| Installer.HarmlessNeverFail | lib/tara/installer.rb:131-141 | harmless actions (`rm_rf`, or a command ending in `\|\| true`) always complete and change only the log, one event each |
| Installer.StripStepsNeverFail | lib/tara/installer.rb:106-141 | `strip_leftovers`, `strip_java_files`, `strip_git_files` and `strip_empty_directories` never raise and leave the tracked tree alone |
| Installer.ErrorEndsRun | lib/tara/installer.rb:16-26 | once a step has raised, the later steps add nothing |
| Installer.OnlyFirstStepsRaise | lib/tara/installer.rb:16-26 | a run that raises has done so in bundling, one of the two extractions, `strip_tests` or `strip_docs`, and its outcome is that of the first five steps |
| Installer.PruningTail | lib/tara/installer.rb:16-26 | after the first five steps, `execute` only runs the `find` passes |
| Installer.PruningHarmless | lib/tara/installer.rb:20-25 | every action of the last four steps is harmless |
| Installer.Installer.RunStep | lib/tara/installer.rb:16-26 | runs step `k` after the `k` before it completed, and reaches the outcome of the first `k + 1` steps |
| Installer.Installer.RunFrom | lib/tara/installer.rb:16-26 | runs the remaining steps and reaches the outcome of all nine |
| Installer.Installer.Execute | lib/tara/installer.rb:16-26 | `execute` reaches the outcome of the nine steps in their fixed order; if it raises, the error is that of the first five steps |
| Archive.Or | lib/tara/archive.rb:60-70 | `v \|\| default` is `v` when `v` is set, otherwise the default |
| Archive.SettledLine | lib/tara/archive.rb:60-70 | each `\|\|=` line keeps a set value and otherwise stores the default computed from the hash the earlier lines left |
| Archive.SettledUntouched | lib/tara/archive.rb:60-70 | the lines before an option's own line leave it alone |
| Archive.SettledKeeps | lib/tara/archive.rb:60-70 | once its line has run, an option keeps its value through the later lines |
| Archive.DefaultReadsEarlier | lib/tara/archive.rb:61-64 | a default depends only on options settled on earlier lines |
| Archive.ResolveLine | lib/tara/archive.rb:58-71 | after `initialize`, each defaulted option is its own value if set, otherwise its default computed from the final configuration |
| Archive.ResolveSettles | lib/tara/archive.rb:58-71 | the configuration after `initialize` satisfies that for every defaulted option at once |
| Archive.SettledPaths | lib/tara/archive.rb:60-64 | `app_dir` defaults to the working directory, `app_name` to its basename, `build_dir` to `<app_dir>/build`, `download_dir` to `<build_dir>/downloads`, `archive_name` to `<app_name>.tgz` |
| Archive.SettledFixed | lib/tara/archive.rb:65-70 | the fixed defaults: `lib/**/*.rb`, `bin/*`, no gem executables, `linux-x86_64`, `20150210`, groups `development` and `test` |
| Archive.ResolveKeepsOthers | lib/tara/archive.rb:58-71 | an option without a line in `initialize` is unchanged |
| Archive.DefaultFits | lib/tara/archive.rb:60-70 | every default is set and has the type its option needs |
| Archive.ResolvedAfterDefaults | lib/tara/archive.rb:58-71 | a well-typed configuration comes out of `initialize` with every option set |
| Archive.ResolveIdempotent | lib/tara/archive.rb:58-71 | running `initialize` again, from any working directory, changes nothing |
| Archive.ResolvedReady | lib/tara/archive.rb:86-100 | a resolved configuration has every type `create` relies on |
| Archive.Archive.constructor | lib/tara/archive.rb:58-71 | `Archive.new` keeps the caller's hash and fills in its defaults there |
| Archive.ExpandedAppend | lib/tara/archive.rb:107-111 | the matches of a list of globs are the matches of each glob in order |
| Archive.StagedAppend | lib/tara/archive.rb:106-131 | staging `a` and then `b` is staging `a + b` |
| Archive.StagedStops | lib/tara/archive.rb:106-131 | once an entry has raised, the later entries are not staged |
| Archive.CreateStepsSteps | lib/tara/archive.rb:87-97 | the block's seven steps, in the source's order |
| Archive.BlockAppend | lib/tara/archive.rb:87-99 | running steps `a` and then `b` is running `a + b` |
| Archive.BlockNext | lib/tara/archive.rb:87-99 | after `k` completed steps, running step `k` reaches the outcome of the first `k + 1` |
| Archive.BlockDone | lib/tara/archive.rb:87-99 | once a step has raised, or all have run, the block is over |
| Archive.Archive.CopyFile | lib/tara/archive.rb:147-159 | `copy_file` does exactly the parent `mkdir_p` and the copy (or only the former for a directory) |
| Archive.Archive.CreateShim | lib/tara/archive.rb:161-173 | a shim is written, then made executable, as `ShimOps` says |
| Archive.Archive.StageExecutable | lib/tara/archive.rb:117-122 | an executable that is a file is copied, made executable and given a shim, as `ExecutableOps` says |
| Archive.Archive.RunStage | lib/tara/archive.rb:106-131 | one entry is staged as `StageOps` says |
| Archive.Archive.RunStages | lib/tara/archive.rb:106-131 | entries are staged in order up to the first that raises |
| Archive.Archive.StageGlobs | lib/tara/archive.rb:106-125 | every match of every glob is staged, glob by glob |
| Archive.Archive.CopySource | lib/tara/archive.rb:106-112 | `copy_source` reaches the outcome of the block's second step |
| Archive.Archive.CopyExecutables | lib/tara/archive.rb:114-125 | `copy_executables` reaches the outcome of the third step |
| Archive.Archive.CreateGemShims | lib/tara/archive.rb:127-131 | `create_gem_shims` reaches the outcome of the fourth step |
| Archive.Archive.SetUpFetcher | lib/tara/archive.rb:139-141 | the fetcher is built from the configured download directory, target and versions, and its `setup` is the fifth step |
| Archive.Archive.InstallDependencies | lib/tara/archive.rb:143-145 | the installer runs with the package, that fetcher and the configuration, as the sixth step |
| Archive.Archive.CreateArchive | lib/tara/archive.rb:133-137 | `tar` of the package's entries, then the archive is copied to the build directory, as the seventh step |
| Archive.Archive.CreateStep | lib/tara/archive.rb:87-97 | each step of the block does what that step's reference says |
| Archive.Archive.Assemble | lib/tara/archive.rb:87-97 | the block runs its steps in order up to the first that raises |
| Archive.Archive.Create | lib/tara/archive.rb:86-100 | `create` runs the block in a fresh directory, removes it whatever happened, and returns the archive's path in the build directory or raises the block's error |
| ArchiveFacts.WrittenModeTargetIsProjectFile | lib/tara/archive.rb:119 | joining the package with the absolute match, as written, names the application's own file, not its copy |
| ArchiveFacts.WrittenCopyKeepsMode | lib/tara/archive.rb:117-121 | as written, the package copy of a nested executable keeps the mode `cp` gave it, and the application's file becomes 0755 |
| ArchiveFacts.WrittenStagingOutside | lib/tara/archive.rb:117-121 | as written, staging an executable whose application file lies outside the package changes, outside the package, at most that file's mode, to 0755 |
| ArchiveFacts.ExecutableCopyIsExecutable | lib/tara/archive.rb:117-121 | corrected: the package copy is 0755, holding the application file's contents (or its own shim at the top level), and the shim is written at mode 0755 |
| ArchiveFacts.ExecutableMatchStaged | lib/tara/archive.rb:116-122 | a match that is not a file is skipped. A staged file match leaves an executable copy and an executable shim for it at the package's top level |
| ArchiveFacts.CopyLands | lib/tara/archive.rb:147-159 | after `copy_file` the package path holds the source's contents, with the mode `cp` leaves, and nothing else among the files changes; the parent directory exists |
| ArchiveFacts.DirectoryMatchCopiesNothing | lib/tara/archive.rb:147-152 | a directory match copies no file; it creates at most its parent directory and that directory's ancestors |
| ArchiveFacts.ShimLands | lib/tara/archive.rb:161-166 | the shim is written exactly when its path is not a directory and its parent directory exists; it then holds the script at mode 0755, and nothing else changes |
| ArchiveFacts.GemShimStaged | lib/tara/archive.rb:168-173 | a gem shim lies in the package. It lands exactly when its path is not a directory and its parent exists, holding the `GemShim` script at mode 0755 |
| ArchiveFacts.ImplicitParentBlocksWrite | lib/tara/archive.rb:150-166 | once `mkdir_p` has made `/p/lib/app`, `/p/lib` is a directory and writing a shim there raises `EISDIR` |
| ArchiveFacts.StageOpsInside | lib/tara/archive.rb:147-173 | every file operation of staging one entry targets a path inside the package |
| ArchiveFacts.StagedInside | lib/tara/archive.rb:106-131 | staging changes no file outside the package. The only directories it adds outside are the package's own ancestors, and none when they exist already |
| ArchiveFacts.ArchivedDelivers | lib/tara/archive.rb:133-137 | a completed `create_archive` leaves `<build_dir>/<archive_name>` holding what `tar` packed from the package's entries. An archive that was there keeps its mode; otherwise the file has 0644 |
| ArchiveFacts.CreateDeliversArchive | lib/tara/archive.rb:86-100 | a completed `create` with an absolute build directory outside the package returns that path, and the file there holds the packed archive |
| ArchiveFacts.CreateCleansUp | lib/tara/archive.rb:87-99 | after `create` nothing under the temporary directory remains; the rest of the tree and the result are the block's |
| ArchiveFacts.RelativeBuildDirRemoved | lib/tara/archive.rb:90-98 | with a relative build directory, the archive `create` names does not exist afterwards |
| Paths.SplitRoundTrip | lib/tara/archive.rb:162-163 | `Pathname#split` of a clean relative path gives back the path when joined; a top-level path splits into `.` and itself |
| Paths.BasenameOfJoin | lib/tara/archive.rb:162 | the basename of a name joined onto a directory is that name |
| Paths.JoinSeam | lib/tara/archive.rb:98 | `File.join` puts one separator at the seam, whichever side brings it: the directory without its trailing `/`, then `/`, then the name without its leading `/` (for a directory not ending in `//`) |
| Paths.JoinAbsoluteName | lib/tara/archive.rb:98 | `File.join("/b", "/x.tgz")` is `/b/x.tgz`, the same as joining `x.tgz` |
| Paths.LineageAbove | lib/tara/fetcher.rb:18 | every directory `mkdir_p(d)` makes is `d` or one of its ancestors |
| Paths.LineageUnder | lib/tara/archive.rb:150 | `mkdir_p` of a path below `a` makes outside `a` only ancestors of `a` |
| Archiver.Archiver.constructor | lib/tara/archiver.rb:45-48 | `Archiver.new` keeps the caller's hash. A set `:metadata` is kept, otherwise it becomes `{}`. Nothing else changes, and `metadata` is always set |
| Archiver.OptionsWin | lib/tara/archiver.rb:54-56 | an option given to `create` that is set reaches the archive as given |
| Archiver.ConfigurationReaches | lib/tara/archiver.rb:54-56 | an option the archiver keeps but `create` does not override reaches the archive unchanged, unless it has a default |
| Archiver.Merged | lib/tara/archiver.rb:55 | the configuration the archive runs with is complete, and set options win |
| Archiver.DefaultArchiveNameExtension | lib/tara/archiver.rb:62-64 | the archive name `Archive.new` makes up ends in `.` and this archiver's extension |
| Archiver.Archiver.Create | lib/tara/archiver.rb:54-56 | `create(options)` is `Archive.create` on the merged hash. It leaves the archiver's configuration as it was and returns or raises what that archive's `create` does. One working directory serves both for the defaults and for the relative matches, as `Dir.pwd` does within one call |

## Left out

- Network transport: `Net::HTTP` is a function from URI to response (status code, `Location`, body). Streaming the body in chunks, connection errors and timeouts are not modelled.
- `Gem::Specification.load`, `Pathname.glob`, `Dir[...]` and the contents `tar` produces are oracles of the host. `Dir.pwd`, `RUBY_VERSION` and the directory `Dir.mktmpdir` picks are parameters. So is the working directory that relative matches are looked up from.
- What `tar -xzf`, `bundle install`, the `find ... -delete` commands and `rm_r`/`rm_rf` of glob matches do to the file tree is not tracked. The model records that they ran, and with what, in order. Whether an `rm_r` raises is an oracle of the host.
- Hosts.Host.RemoveEntry: always completes. In Ruby, `remove_entry` without `force` can raise (for example `EACCES` on a read-only directory unpacked from a tarball), and that error would replace `create`'s result; so `ArchiveFacts.CreateCleansUp`'s "the block's error stands" holds only under this choice.
- ArchiveFacts.CreateCleansUp: the block's error stands because the model's `remove_entry` cannot raise (see the line above).
- Hosts.Host.RemoveAll: leaves the tracked tree unchanged, because which paths a glob matches is not modelled.
- Hosts.Host.RemoveMatching: leaves the tracked tree unchanged for the same reason; only whether it raises is modelled.
- Installer.StripStepsNeverFail: "leaves the tracked tree alone" holds only because shell commands' effects are not tracked. In the program, `strip_empty_directories` (lib/tara/installer.rb:131-133) deletes empty directories, tracked ones included (a package directory `mkdir_p` made and nothing filled, say), and the `find` passes delete files below `lib/vendor/ruby`.
- Installer.QuietRun and Installer.StripFromGemsOutcome: the same limit; `rm_r` deletes its matches, which the tracked tree does not show.
- Hosts.Host.MkdirP: a tree in which a file sits below another file is taken not to arise, so the only error modelled is `EEXIST`; the directories made are the prefixes of the path up to each `/`, compared as text.
- Hosts.Host.Write and Hosts.Host.Copy: a parent path that is a regular file raises `ENOENT` in the model, where Ruby raises `ENOTDIR`.
- Hosts.Host.Copy: the mode of a new file is the source's mode under a fixed umask of 022; other umasks are not modelled.
- ArchiveFacts.RelativeBuildDirRemoved: requires a temporary directory not written with two trailing separators. Paths are compared as text, and with an empty `build_dir` and an `archive_name` starting with `/`, such a directory's joined path would not read as lying below it. `Dir.mktmpdir` never names one that way.
- ArchiveFacts.CreateDeliversArchive: states the archive's contents, not its mode; `ArchiveFacts.ArchivedDelivers` states the mode (an archive that was already there keeps its own).
- `copy_file` of a directory match (lib/tara/archive.rb:149-152) copies nothing below the directory, as written. So a files glob such as `lib/*`, which matches directories, stages none of their contents. `ArchiveFacts.DirectoryMatchCopiesNothing` states that.
- `copy_gem_files` (lib/tara/installer.rb:90-96) is left out of `bundle_gems`: it copies from the application directory, and its globbing is relative to a working directory the model does not track. `Installer.BundleActions` covers the rest of `bundle_gems`.
- `Dir.chdir` and `Bundler.with_clean_env` are not modelled: the effect of `chdir` shows only in paths that are resolved against the package (the archive path, the relative globs of `bundle_gems`).
- `exec_with_env`, which the installer calls on its shell, is not defined in lib/tara/shell.rb; the model gives it the meaning of `Shell.exec` with the given environment variables (`Shell.ExecWithEnv`).
- The `:shell` option of `Fetcher` and `Installer`, and `TARA_DEBUG` logging in `Shell.exec`, are left out; the host's shell oracle plays the shell.
- `@fetcher ||=` and the other memoising `||=` in the fetcher and the installer are not modelled separately: `create` asks for the fetcher once, and the memoised values never change.
- `Archive.create` (lib/tara/archive.rb:77-79) is `new(config).create`, which `Archiver.Archiver.Create` performs.
- Archiver.Extension and Archiver.ContentType: fixed strings, modelled as constants without a contract; `DefaultArchiveNameExtension` relates the extension to the default archive name.
- Archiver.Archiver.MetadataOf: the accessor of `:metadata`, without a contract of its own; the constructor states that it is always set.
- `create` and `Archiver#create` require a configuration in which every option has the type the code uses (strings, lists of strings, pairs). Other types would make Ruby raise `NoMethodError` or `TypeError`, which is not modelled.
- Option keys other than those the code reads are carried as `Other(name)`, without a type.
- File modes of directories are not tracked.
- Archive.Archive.StageExecutable: models the corrected `chmod` of lib/tara/archive.rb:119, aimed at the package's copy (`ModeTarget`), not the application's own file that the code names; `ArchiveFacts.WrittenCopyKeepsMode` and `ArchiveFacts.WrittenStagingOutside` state what the code as written does.
- Archive.Archive.RunStage: stages an executable with the corrected `chmod`, through `Archive.ExecutableOps`.
- Archive.Archive.RunStages: the same corrected `chmod` for every executable it stages.
- Archive.Archive.StageGlobs: the same corrected `chmod` for every executable match.
- Archive.Archive.CopyExecutables: the same; as written, `copy_executables` makes each executable's application file 0755 and leaves its package copy with the mode `cp` gave it.
- Archive.Archive.CreateStep: its third step is the corrected `copy_executables`.
- Archive.Archive.Assemble: runs that corrected third step.
- Archive.Archive.Create: runs that corrected third step; as written, `create` also changes the modes of the application's executables.
- Archiver.Archiver.Create: runs `Archive.create` with the corrected `chmod` of lib/tara/archive.rb:119, so the application's executables keep their modes; as written, `create` also makes them 0755.
- Archive.ExecutableOps: the corrected operations of one executable; `ArchiveFacts.WrittenExecutableOps` holds those as written.
- ArchiveFacts.ExecutableCopyIsExecutable: the package copy is 0755 only with the corrected `chmod`; as written it keeps the mode `cp` gave it.
- ArchiveFacts.ExecutableMatchStaged: the same; it states the corrected behaviour.
- ArchiveFacts.StageOpsInside: holds for the corrected `chmod`. As written, one operation per executable is aimed outside the package, at the application file.
- ArchiveFacts.StagedInside: holds for the corrected `chmod`. As written, copying the executables changes one thing outside the package, the application file's mode; `ArchiveFacts.WrittenStagingOutside` bounds that change.
- The rest of the repository (lib/tara.rb, lib/tara/cli.rb, lib/ext/bundler.rb) is not part of this model.

## Findings

| source | as written | input that shows it | evidently intended | confidence | as-written member | corrected member |
|---|---|---|---|---|---|---|
| lib/tara/archive.rb:119 | `FileUtils.chmod(0755, package_dir.join(executable))`, where `executable` is the absolute glob match, so `Pathname#join` returns the application's own file | `app_dir` `/app`, package `/tmp/d`, executable `bin/tool` with mode 0644: the copy `/tmp/d/bin/tool` stays 0644 and `/app/bin/tool` becomes 0755 | `chmod` of `package_dir.join(relative_executable)`, the package's copy | not executed | ArchiveFacts.WrittenCopyKeepsMode | ArchiveFacts.ExecutableCopyIsExecutable |
