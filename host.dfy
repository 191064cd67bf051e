/**
 * The machine the tool runs on, reduced to what the core observes and does:
 * a file tree (regular files with contents and modes, and directories), an
 * HTTP release server, a shell, directory globbing and the gem
 * specifications left behind by `bundle install`. The outside world is given
 * as oracles; every action the core takes is appended to `log`, so the order
 * of commands, requests and file operations can be stated exactly.
 *
 * `files` and `dirs` record only what this code itself creates or changes,
 * and the archive `tar` writes; what else `tar`, `find` and `bundle` do to the
 * tree is not tracked.
 */
module Hosts {
  import opened Errors
  import opened Text
  import opened Paths

  /** 0644: the mode of a file created under umask 022. */
  const DefaultMode: int := 420
  /** 0755 */
  const ExecutableMode: int := 493

  datatype FileEntry = FileEntry(content: string, mode: int)

  /** A command line and the environment variables it runs with. */
  datatype Invocation = Invocation(command: string, env: map<string, string>)

  /** What a command printed and its exit status. */
  datatype Output = Output(text: string, status: int)

  /** An HTTP response: status code, `Location` header and body. */
  datatype Response = Response(status: nat, location: string, body: string)

  /** What `Gem::Specification.load` yields for one installed gemspec. */
  datatype GemSpec = GemSpec(name: string, version: string, extensions: seq<string>)

  datatype Event =
    | Request(uri: string)
    | Run(invocation: Invocation)
    | MakeDirectory(path: string)
    | CopyFile(source: string, target: string)
    | WriteFile(path: string, text: string)
    | ChangeMode(path: string, mode: int)
    | RemoveMatches(pattern: string, force: bool)
    | RemoveTree(path: string)

  /** The tree after some actions, what they logged, and whether they raised. */
  datatype Outcome = Outcome(files: map<string, FileEntry>, dirs: set<string>, events: seq<Event>, result: Status)

  /** `x`, then what follows it from `x`'s tree unless `x` raised. */
  function Then(x: Outcome, y: Outcome): (r: Outcome)
    ensures x.result.Raised? ==> r == x
    ensures x.result.Completed? ==> r.files == y.files && r.dirs == y.dirs && r.events == x.events + y.events && r.result == y.result
  {
    if x.result.Raised? then x else Outcome(y.files, y.dirs, x.events + y.events, y.result)
  }

  /** A change that `File` and `FileUtils` make to the tree. */
  datatype FileOp =
    | MakePath(path: string)                     // FileUtils.mkdir_p
    | CopyPath(source: string, target: string)   // FileUtils.cp
    | WritePath(path: string, text: string)      // File.open(path, 'w') and one write
    | ModePath(mode: int, path: string)          // FileUtils.chmod

  /** Where `FileUtils.cp` puts a copy: into a directory it keeps the basename. */
  function CopyDestination(dirs: set<string>, source: string, target: string): string {
    if target in dirs then FileJoin(target, Basename(source)) else target
  }

  /**
   * The mode `open` gives a new file when it asks for `mode` under umask 022:
   * the group and other write bits are cleared, nothing else changes.
   */
  function Umasked(mode: int): (r: int)
    ensures mode - 18 <= r <= mode
    ensures (r / 16) % 2 == 0 && (r / 2) % 2 == 0
    ensures r % 2 == mode % 2 && (r / 4) % 4 == (mode / 4) % 4 && r / 32 == mode / 32
  {
    UmaskClears(mode);
    UmaskKeeps(mode);
    mode - (if (mode / 16) % 2 == 1 then 16 else 0) - (if (mode / 2) % 2 == 1 then 2 else 0)
  }

  lemma UmaskClears(m: int)
    ensures var r := m - (if (m / 16) % 2 == 1 then 16 else 0) - (if (m / 2) % 2 == 1 then 2 else 0);
      (r / 16) % 2 == 0 && (r / 2) % 2 == 0
  {
    var q, s := m / 16, m % 16;
    var a := q % 2;
    SplitSixteen(q, s);
    var u := s / 2;
    var b := u % 2;
    EvenShift(4 * q, u);
    var t := s - 2 * b;
    var r := 16 * (q - a) + t;
    assert r == m - 16 * a - 2 * b;
    SplitSixteen(q - a, t);
    assert t / 2 == u - b;
    EvenShift(4 * (q - a), u - b);
  }

  /** The bits the umask does not name (1, 4, 8 and 32 upwards) are kept. */
  lemma UmaskKeeps(m: int)
    ensures var r := m - (if (m / 16) % 2 == 1 then 16 else 0) - (if (m / 2) % 2 == 1 then 2 else 0);
      r % 2 == m % 2 && (r / 4) % 4 == (m / 4) % 4 && r / 32 == m / 32
  {
    var q, s := m / 16, m % 16;
    var a, h := q % 2, q / 2;
    SplitSixteen(q, s);
    var u := s / 2;
    var b := u % 2;
    EvenShift(4 * q, u);
    var t := s - 2 * b;
    assert q == 2 * h + a;
    assert m == 32 * h + (16 * a + s);
    SplitThirtyTwo(h, t);
    SplitThirtyTwo(h, 16 * a + s);
    FourShift(2 * h, t / 4);
    FourShift(2 * h + a, s / 4);
    LowBitsKept(s);
  }

  /** Clearing bit 2 of a number below 16 keeps its bits 1, 4 and 8. */
  lemma LowBitsKept(s: int)
    requires 0 <= s < 16
    ensures var t := s - 2 * ((s / 2) % 2); t / 4 == s / 4 && t % 2 == s % 2
  {
  }

  /** Dividing `32 * x + t` by 32, by 4 and by 2, for a remainder `t` below 32. */
  lemma SplitThirtyTwo(x: int, t: int)
    requires 0 <= t < 32
    ensures (32 * x + t) / 32 == x && (32 * x + t) / 4 == 8 * x + t / 4 && (32 * x + t) % 2 == t % 2
  {
  }

  /** Adding a multiple of 4 keeps the remainder by 4. */
  lemma FourShift(x: int, u: int)
    ensures (4 * x + u) % 4 == u % 4
  {
  }

  /** Dividing `16 * x + t` by 16 and by 2, for a remainder `t` below 16. */
  lemma SplitSixteen(x: int, t: int)
    requires 0 <= t < 16
    ensures (16 * x + t) / 16 == x && (16 * x + t) / 2 == 8 * x + t / 2
  {
  }

  /** Adding an even number keeps the parity. */
  lemma EvenShift(x: int, u: int)
    ensures (2 * x + u) % 2 == u % 2
  {
  }

  /** The modes the tool creates are unchanged by the umask; `File.open`'s 0666 becomes 0644. */
  lemma UmaskedModes()
    ensures Umasked(DefaultMode) == DefaultMode && Umasked(ExecutableMode) == ExecutableMode
    ensures Umasked(438) == DefaultMode
  {
  }

  /** An existing file keeps its mode when it is opened for writing; a new one gets `mode` under the umask. */
  function NewFileMode(files: map<string, FileEntry>, p: string, mode: int): int {
    if p in files then files[p].mode else Umasked(mode)
  }

  /**
   * The shallowest member of `d`'s lineage beyond `d[..i]` that is a regular
   * file, if there is one.
   */
  function BlockerFrom(files: map<string, FileEntry>, d: string, i: nat): (r: Option<string>)
    requires i <= |d|
    ensures r.None? ==> forall j :: i < j <= |d| && Cut(d, j) ==> d[..j] !in files
    ensures r.Some? ==> exists j :: i < j <= |d| && Cut(d, j) && r.value == d[..j] && r.value in files
                                    && forall k :: i < k < j && Cut(d, k) ==> d[..k] !in files
    decreases |d| - i
  {
    if i == |d| then None
    else if Cut(d, i + 1) && d[..i + 1] in files then Some(d[..i + 1])
    else BlockerFrom(files, d, i + 1)
  }

  /**
   * What stops `FileUtils.mkdir_p(d)`: the shallowest directory it would
   * have to make that is a regular file; there is none exactly when no
   * member of `d`'s lineage is one.
   */
  function Blocker(files: map<string, FileEntry>, d: string): (r: Option<string>)
    ensures r.None? <==> forall q :: q in Lineage(d) ==> q !in files
    ensures r.Some? ==> r.value in Lineage(d) && r.value in files
    ensures r.Some? ==> forall q :: q in Lineage(d) && |q| < |r.value| ==> q !in files
  {
    var r := BlockerFrom(files, d, 0);
    if r.Some? then
      var j :| 0 < j <= |d| && Cut(d, j) && r.value == d[..j] && r.value in files
               && forall k :: 0 < k < j && Cut(d, k) ==> d[..k] !in files;
      assert r.value in Lineage(d);
      r
    else
      r
  }

  /** `p`'s parent directory exists: it is `.`, `/` or a directory of the tree. */
  predicate ParentExists(dirs: set<string>, p: string) {
    var up := Dirname(p);
    up == "." || up == "/" || up in dirs
  }

  /** What one file operation does to a tree; the reference for the `Host` methods below. */
  function Applied(files: map<string, FileEntry>, dirs: set<string>, op: FileOp): (o: Outcome)
    ensures |o.events| == 1 && o.dirs >= dirs
  {
    match op
    case MakePath(d) =>
      var b := Blocker(files, d);
      if b.Some? then Outcome(files, dirs, [MakeDirectory(d)], Raised(FileError("EEXIST", b.value)))
      else Outcome(files, dirs + Lineage(d), [MakeDirectory(d)], Completed)
    case CopyPath(source, target) =>
      var into := CopyDestination(dirs, source, target);
      var ev := [CopyFile(source, target)];
      if source !in files && source !in dirs then Outcome(files, dirs, ev, Raised(FileError("ENOENT", source)))
      else if into in dirs then Outcome(files, dirs, ev, Raised(FileError("EISDIR", into)))
      else if !ParentExists(dirs, into) then Outcome(files, dirs, ev, Raised(FileError("ENOENT", into)))
      else if source !in files then
        Outcome(files[into := FileEntry("", NewFileMode(files, into, ExecutableMode))], dirs, ev, Raised(FileError("EISDIR", source)))
      else Outcome(files[into := FileEntry(files[source].content, NewFileMode(files, into, files[source].mode))], dirs, ev, Completed)
    case WritePath(p, text) =>
      if p in dirs then Outcome(files, dirs, [WriteFile(p, text)], Raised(FileError("EISDIR", p)))
      else if !ParentExists(dirs, p) then Outcome(files, dirs, [WriteFile(p, text)], Raised(FileError("ENOENT", p)))
      else Outcome(files[p := FileEntry(text, if p in files then files[p].mode else DefaultMode)], dirs,
                   [WriteFile(p, text)], Completed)
    case ModePath(mode, p) =>
      if p in files then Outcome(files[p := FileEntry(files[p].content, mode)], dirs, [ChangeMode(p, mode)], Completed)
      else if p in dirs then Outcome(files, dirs, [ChangeMode(p, mode)], Completed)
      else Outcome(files, dirs, [ChangeMode(p, mode)], Raised(FileError("ENOENT", p)))
  }

  /** File operations in order; the first that raises ends the sequence. */
  function AppliedAll(files: map<string, FileEntry>, dirs: set<string>, ops: seq<FileOp>): Outcome
    decreases |ops|
  {
    if |ops| == 0 then Outcome(files, dirs, [], Completed)
    else
      var prev := AppliedAll(files, dirs, ops[..|ops| - 1]);
      Then(prev, Applied(prev.files, prev.dirs, ops[|ops| - 1]))
  }

  /** Once an operation has raised, the ones after it do nothing. */
  lemma {:induction false} AppliedAllStops(files: map<string, FileEntry>, dirs: set<string>, ops: seq<FileOp>, k: nat)
    requires k <= |ops|
    requires AppliedAll(files, dirs, ops[..k]).result.Raised?
    ensures AppliedAll(files, dirs, ops) == AppliedAll(files, dirs, ops[..k])
    decreases |ops|
  {
    if k < |ops| {
      var init := ops[..|ops| - 1];
      assert init[..k] == ops[..k];
      AppliedAllStops(files, dirs, init, k);
    } else {
      assert ops[..k] == ops;
    }
  }

  /** Running `a` and then `b` is running `a + b`. */
  lemma {:induction false} AppliedAllAppend(files: map<string, FileEntry>, dirs: set<string>, a: seq<FileOp>, b: seq<FileOp>)
    ensures var x := AppliedAll(files, dirs, a);
      AppliedAll(files, dirs, a + b) == Then(x, AppliedAll(x.files, x.dirs, b))
    decreases |b|
  {
    var x := AppliedAll(files, dirs, a);
    if |b| == 0 {
      assert a + b == a;
    } else {
      var b' := b[..|b| - 1];
      assert (a + b)[..|a + b| - 1] == a + b';
      AppliedAllAppend(files, dirs, a, b');
      var y' := AppliedAll(x.files, x.dirs, b');
      var prev := Then(x, y');
      var last := Applied(prev.files, prev.dirs, b[|b| - 1]);
      assert AppliedAll(files, dirs, a + b) == Then(prev, last);
      if x.result.Completed? {
        assert AppliedAll(x.files, x.dirs, b) == Then(y', last);
        ThenAssoc(x, y', last);
      }
    }
  }

  /** Running `ops` and then `op` is running `ops + [op]`. */
  lemma AppliedAllSnoc(files: map<string, FileEntry>, dirs: set<string>, ops: seq<FileOp>, op: FileOp)
    ensures var x := AppliedAll(files, dirs, ops);
      AppliedAll(files, dirs, ops + [op]) == Then(x, Applied(x.files, x.dirs, op))
  {
    assert (ops + [op])[..|ops|] == ops;
  }

  /** Once `a` has raised, what follows it does not run. */
  lemma AppliedAllRaised(files: map<string, FileEntry>, dirs: set<string>, a: seq<FileOp>, b: seq<FileOp>)
    requires AppliedAll(files, dirs, a).result.Raised?
    ensures AppliedAll(files, dirs, a + b) == AppliedAll(files, dirs, a)
  {
    AppliedAllAppend(files, dirs, a, b);
  }

  /** What `FileUtils.remove_entry(d)` leaves: the tree without `d` and everything below it. */
  function RemovedTree(files: map<string, FileEntry>, dirs: set<string>, d: string): Outcome {
    Outcome(map p | p in files && !Under(p, d) :: files[p], set p | p in dirs && !Under(p, d),
            [RemoveTree(d)], Completed)
  }

  /**
   * `x`, then `y` from `x`'s tree whether or not `x` raised (an `ensure`
   * clause): an error `y` raises replaces `x`'s, otherwise `x`'s result stands.
   */
  function Finally(x: Outcome, y: Outcome): (r: Outcome)
    ensures r.events == x.events + y.events && r.files == y.files && r.dirs == y.dirs
    ensures r.result == if y.result.Raised? then y.result else x.result
  {
    Outcome(y.files, y.dirs, x.events + y.events, if y.result.Raised? then y.result else x.result)
  }

  lemma ThenAssoc(x: Outcome, y: Outcome, z: Outcome)
    ensures Then(Then(x, y), z) == Then(x, Then(y, z))
  {
    if x.result.Completed? && y.result.Completed? {
      assert x.events + (y.events + z.events) == x.events + y.events + z.events;
    }
  }

  /** `host`'s tree and log are what `o` says, after `log`. */
  ghost predicate Reached(host: Host, log: seq<Event>, o: Outcome)
    reads host
  {
    host.files == o.files && host.dirs == o.dirs && host.log == log + o.events
  }

  /** Reaching what `b` does after a completed `a` is reaching what `a + b` does. */
  lemma ReachedAll(host: Host, log: seq<Event>, files: map<string, FileEntry>, dirs: set<string>, a: seq<FileOp>, b: seq<FileOp>)
    requires var x := AppliedAll(files, dirs, a);
      x.result.Completed? && Reached(host, log + x.events, AppliedAll(x.files, x.dirs, b))
    ensures Reached(host, log, AppliedAll(files, dirs, a + b))
    ensures var x := AppliedAll(files, dirs, a);
      AppliedAll(files, dirs, a + b).result == AppliedAll(x.files, x.dirs, b).result
  {
    var x := AppliedAll(files, dirs, a);
    AppliedAllAppend(files, dirs, a, b);
    ReachedThen(host, log, x, AppliedAll(x.files, x.dirs, b));
  }

  /** Reaching `y` after `x`'s events, from where a completed `x` left off, is reaching `Then(x, y)`. */
  lemma ReachedThen(host: Host, log: seq<Event>, x: Outcome, y: Outcome)
    requires x.result.Completed? && Reached(host, log + x.events, y)
    ensures Reached(host, log, Then(x, y))
  {
    assert log + x.events + y.events == log + (x.events + y.events);
  }

  /** Reaching what `y` does after `x`, whatever `x`'s result, is reaching `Finally(x, y)`. */
  lemma ReachedFinally(host: Host, log: seq<Event>, x: Outcome, y: Outcome)
    requires Reached(host, log + x.events, y)
    ensures Reached(host, log, Finally(x, y))
  {
    assert log + x.events + y.events == log + (x.events + y.events);
  }

  function Requests(uris: seq<string>): (r: seq<Event>)
    ensures |r| == |uris|
    ensures forall i :: 0 <= i < |uris| ==> r[i] == Request(uris[i])
  {
    if |uris| == 0 then [] else [Request(uris[0])] + Requests(uris[1..])
  }

  class Host {
    /** The release server: the response a GET of each URI receives. */
    const server: string -> Response
    /** The shell: what running each invocation prints and returns. */
    const shell: Invocation -> Output
    /** `Pathname.glob(base.join(pattern))`, each match relative to `base`, in glob order. */
    const glob: (string, string) -> seq<string>
    // The specifications found in the `specifications` directories under lib/vendor/ruby after bundling.
    const gemspecs: seq<GemSpec>
    /** The bytes `tar -czf` writes for a list of top-level entries. */
    const packer: seq<string> -> string
    /** `RUBY_VERSION` of the running interpreter. */
    const rubyVersion: string
    /** What `FileUtils.rm_r` of a glob's matches raises, if anything (a match it may not delete, say). */
    const removal: string -> Status

    var files: map<string, FileEntry>
    var dirs: set<string>
    var log: seq<Event>

    constructor (server: string -> Response, shell: Invocation -> Output,
                 glob: (string, string) -> seq<string>, gemspecs: seq<GemSpec>,
                 packer: seq<string> -> string, rubyVersion: string, removal: string -> Status,
                 files: map<string, FileEntry>, dirs: set<string>)
      ensures this.server == server && this.shell == shell && this.glob == glob
      ensures this.gemspecs == gemspecs && this.packer == packer && this.rubyVersion == rubyVersion
      ensures this.removal == removal
      ensures this.files == files && this.dirs == dirs && log == []
    {
      this.server, this.shell, this.glob := server, shell, glob;
      this.gemspecs, this.packer, this.rubyVersion, this.removal := gemspecs, packer, rubyVersion, removal;
      this.files, this.dirs, this.log := files, dirs, [];
    }

    /** `File.exist?(p)` */
    predicate Exists(p: string)
      reads this
    {
      p in files || p in dirs
    }

    /** `Net::HTTP` GET of `uri`. */
    method Get(uri: string) returns (response: Response)
      modifies this
      ensures response == server(uri)
      ensures log == old(log) + [Request(uri)]
      ensures files == old(files) && dirs == old(dirs)
    {
      response := server(uri);
      log := log + [Request(uri)];
    }

    /** Runs a command line; what it does to the tree is not tracked. */
    method RunCommand(invocation: Invocation) returns (output: Output)
      modifies this
      ensures output == shell(invocation)
      ensures log == old(log) + [Run(invocation)]
      ensures files == old(files) && dirs == old(dirs)
    {
      output := shell(invocation);
      log := log + [Run(invocation)];
    }

    /**
     * `FileUtils.mkdir_p(d)`: makes `d` and every ancestor it names, unless
     * one of them is a regular file, which it names in the error.
     */
    method MkdirP(d: string) returns (r: Result<()>)
      modifies this
      ensures log == old(log) + [MakeDirectory(d)]
      ensures files == old(files)
      ensures var b := Blocker(old(files), d);
        r == if b.Some? then Err(FileError("EEXIST", b.value)) else Ok(())
      ensures dirs == if r.Ok? then old(dirs) + Lineage(d) else old(dirs)
    {
      log := log + [MakeDirectory(d)];
      var b := Blocker(files, d);
      if b.Some? {
        return Err(FileError("EEXIST", b.value));
      }
      dirs := dirs + Lineage(d);
      return Ok(());
    }

    /**
     * `FileUtils.cp(source, target)`: into a directory it keeps the basename.
     * It opens the source, then the destination (which a new file gets with
     * the source's mode under the umask, and an existing one keeps its own),
     * then reads: a directory source fails only there, leaving the
     * destination empty.
     */
    method Copy(source: string, target: string) returns (r: Result<()>)
      modifies this
      ensures log == old(log) + [CopyFile(source, target)]
      ensures dirs == old(dirs)
      ensures var into := CopyDestination(old(dirs), source, target);
        && (r == if source !in old(files) && source !in old(dirs) then Err(FileError("ENOENT", source))
                 else if into in old(dirs) then Err(FileError("EISDIR", into))
                 else if !ParentExists(old(dirs), into) then Err(FileError("ENOENT", into))
                 else if source !in old(files) then Err(FileError("EISDIR", source))
                 else Ok(()))
        && files == if r.Ok? then old(files)[into := FileEntry(old(files)[source].content, NewFileMode(old(files), into, old(files)[source].mode))]
                    else if r == Err(FileError("EISDIR", source)) && into !in old(dirs) then old(files)[into := FileEntry("", NewFileMode(old(files), into, ExecutableMode))]
                    else old(files)
    {
      log := log + [CopyFile(source, target)];
      var into := CopyDestination(dirs, source, target);
      if source !in files && source !in dirs {
        return Err(FileError("ENOENT", source));
      }
      if into in dirs {
        return Err(FileError("EISDIR", into));
      }
      if !ParentExists(dirs, into) {
        return Err(FileError("ENOENT", into));
      }
      if source !in files {
        // A directory's mode is not tracked; `mkdir` under umask 022 gives it 0755.
        files := files[into := FileEntry("", NewFileMode(files, into, ExecutableMode))];
        return Err(FileError("EISDIR", source));
      }
      files := files[into := FileEntry(files[source].content, NewFileMode(files, into, files[source].mode))];
      return Ok(());
    }

    /** `File.open(p, 'w') { |f| f.write(text) }`: an existing file keeps its mode. */
    method Write(p: string, text: string) returns (r: Result<()>)
      modifies this
      ensures log == old(log) + [WriteFile(p, text)]
      ensures dirs == old(dirs)
      ensures r == if p in old(dirs) then Err(FileError("EISDIR", p))
                   else if !ParentExists(old(dirs), p) then Err(FileError("ENOENT", p))
                   else Ok(())
      ensures files == if r.Err? then old(files)
                       else old(files)[p := FileEntry(text, if p in old(files) then old(files)[p].mode else DefaultMode)]
    {
      log := log + [WriteFile(p, text)];
      if p in dirs {
        return Err(FileError("EISDIR", p));
      }
      if !ParentExists(dirs, p) {
        return Err(FileError("ENOENT", p));
      }
      var mode := if p in files then files[p].mode else DefaultMode;
      files := files[p := FileEntry(text, mode)];
      return Ok(());
    }

    /** `FileUtils.chmod(mode, p)`; directory modes are not tracked. */
    method Chmod(mode: int, p: string) returns (r: Result<()>)
      modifies this
      ensures log == old(log) + [ChangeMode(p, mode)]
      ensures dirs == old(dirs)
      ensures r == if old(Exists(p)) then Ok(()) else Err(FileError("ENOENT", p))
      ensures files == if p in old(files) then old(files)[p := FileEntry(old(files)[p].content, mode)] else old(files)
    {
      log := log + [ChangeMode(p, mode)];
      if p in files {
        files := files[p := FileEntry(files[p].content, mode)];
      } else if p !in dirs {
        return Err(FileError("ENOENT", p));
      }
      return Ok(());
    }

    /** `FileUtils.rm_rf(Dir[pattern])`: removes every match; never raises. */
    method RemoveAll(pattern: string)
      modifies this
      ensures log == old(log) + [RemoveMatches(pattern, true)]
      ensures files == old(files) && dirs == old(dirs)
    {
      log := log + [RemoveMatches(pattern, true)];
    }

    /** `FileUtils.rm_r(Dir[pattern])`: removes every match, and raises when one cannot be removed. */
    method RemoveMatching(pattern: string) returns (r: Status)
      modifies this
      ensures r == removal(pattern)
      ensures log == old(log) + [RemoveMatches(pattern, false)]
      ensures files == old(files) && dirs == old(dirs)
    {
      r := removal(pattern);
      log := log + [RemoveMatches(pattern, false)];
    }

    /** `FileUtils.remove_entry(d)`: removes `d` and everything below it. */
    method RemoveEntry(d: string)
      modifies this
      ensures Reached(this, old(log), RemovedTree(old(files), old(dirs), d))
    {
      files := map p | p in files && !Under(p, d) :: files[p];
      dirs := set p | p in dirs && !Under(p, d);
      log := log + [RemoveTree(d)];
    }

    /**
     * One more file operation after the completed operations `done`, which
     * started from the tree `files0`, `dirs0` and the log `log0`.
     */
    method ApplyNext(op: FileOp, ghost files0: map<string, FileEntry>, ghost dirs0: set<string>,
                     ghost log0: seq<Event>, ghost done: seq<FileOp>) returns (r: Status)
      requires AppliedAll(files0, dirs0, done).result.Completed?
      requires Reached(this, log0, AppliedAll(files0, dirs0, done))
      modifies this
      ensures var o := AppliedAll(files0, dirs0, done + [op]); Reached(this, log0, o) && r == o.result
    {
      ghost var prev := AppliedAll(files0, dirs0, done);
      r := Apply(op);
      AppliedAllSnoc(files0, dirs0, done, op);
      ReachedThen(this, log0, prev, Applied(prev.files, prev.dirs, op));
    }

    /** One file operation, through the method that performs it. */
    method Apply(op: FileOp) returns (r: Status)
      modifies this
      ensures var o := Applied(old(files), old(dirs), op); Reached(this, old(log), o) && r == o.result
    {
      match op
      case MakePath(d) =>
        var x := MkdirP(d);
        r := StatusOf(x);
      case CopyPath(source, target) =>
        var x := Copy(source, target);
        r := StatusOf(x);
      case WritePath(p, text) =>
        var x := Write(p, text);
        r := StatusOf(x);
      case ModePath(mode, p) =>
        var x := Chmod(mode, p);
        r := StatusOf(x);
    }

    /** File operations in order, stopping at the first that raises. */
    method ApplyAll(ops: seq<FileOp>) returns (r: Status)
      modifies this
      ensures var o := AppliedAll(old(files), old(dirs), ops); Reached(this, old(log), o) && r == o.result
    {
      r := Completed;
      var i := 0;
      while i < |ops|
        invariant 0 <= i <= |ops|
        invariant var o := AppliedAll(old(files), old(dirs), ops[..i]); Reached(this, old(log), o) && r == o.result
        invariant r == Completed
      {
        ghost var before := log;
        ghost var prev := AppliedAll(old(files), old(dirs), ops[..i]);
        assert ops[..i + 1][..i] == ops[..i];
        r := Apply(ops[i]);
        ghost var last := Applied(prev.files, prev.dirs, ops[i]);
        assert log == old(log) + (prev.events + last.events);
        if r.Raised? {
          AppliedAllStops(old(files), old(dirs), ops, i + 1);
          return;
        }
        i := i + 1;
      }
      assert ops[..i] == ops;
    }

    /** A file an external tool wrote (the archive `tar -czf` produces). */
    method Deposit(p: string, content: string)
      modifies this
      ensures files == old(files)[p := FileEntry(content, DefaultMode)]
      ensures dirs == old(dirs) && log == old(log)
    {
      files := files[p := FileEntry(content, DefaultMode)];
    }
  }

  /** What `io.puts(text)` writes: the text, and a newline unless it already ends in one. */
  function PutsText(text: string): (r: string)
    ensures EndsWith(r, "\n") && StartsWith(r, text)
    ensures EndsWith(text, "\n") ==> r == text
  {
    if EndsWith(text, "\n") then text else text + "\n"
  }

  /** An IO object opened for writing: everything written so far, in order. */
  class Stream {
    var written: string

    constructor ()
      ensures written == ""
    {
      written := "";
    }

    /** `io.puts(text)` */
    method Puts(text: string)
      modifies this
      ensures written == old(written) + PutsText(text)
    {
      written := written + PutsText(text);
    }
  }
}
