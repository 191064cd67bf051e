/**
 * The artifact fetcher (lib/tara/fetcher.rb): it derives the cache path and
 * the release-server URI of the Traveling Ruby runtime and of a prebuilt
 * native gem, and downloads an artifact unless its cache file already
 * exists, following at most ten redirects.
 *
 * `Follow` is the reference definition of the redirect chain on a cache
 * miss; `Fetch` is the method that talks to the host, recursive like the Ruby
 * method, and is proved to do exactly what `Fetched` says.
 */
module Fetcher {
  import opened Errors
  import opened Text
  import opened Options
  import opened Paths
  import opened Hosts

  const DefaultReleaseUrl: string := "http://d6r77u77i8pq3.cloudfront.net/releases"
  /** Redirects followed after the first request. */
  const RedirectLimit: nat := 10

  datatype Fetcher = Fetcher(
    downloadDir: string,
    target: string,
    trVersion: string,
    rubyVersion: string,
    releaseUrl: string)

  /** `Fetcher.new(download_dir, target, tr_version, options)`. */
  function NewFetcher(downloadDir: string, target: string, trVersion: string,
                      options: Hash, runningRubyVersion: string): Fetcher
  {
    Fetcher(downloadDir, target, trVersion,
            if Truthy(Lookup(options, RubyVersion)) then StrOf(options, RubyVersion) else runningRubyVersion,
            if Truthy(Lookup(options, TrReleaseUrl)) then StrOf(options, TrReleaseUrl) else DefaultReleaseUrl)
  }

  /**
   * `setup`: creates the download directory and its missing ancestors, and
   * returns the fetcher; a regular file in the way is an error.
   */
  method Setup(f: Fetcher, host: Host) returns (r: Result<Fetcher>)
    modifies host
    ensures host.log == old(host.log) + [MakeDirectory(f.downloadDir)]
    ensures host.files == old(host.files)
    ensures host.dirs == if r.Ok? then old(host.dirs) + Lineage(f.downloadDir) else old(host.dirs)
    ensures var b := Blocker(old(host.files), f.downloadDir);
      r == if b.Some? then Err(FileError("EEXIST", b.value)) else Ok(f)
  {
    var _ :- host.MkdirP(f.downloadDir);
    return Ok(f);
  }

  /** The tail shared by every artifact name: `<tr>-<ruby>-<target>`. */
  function Platform(f: Fetcher): string {
    f.trVersion + "-" + f.rubyVersion + "-" + f.target
  }

  function RubyLocalPath(f: Fetcher): string {
    f.downloadDir + "/ruby-" + Platform(f) + ".tar.gz"
  }

  function RubyRemoteUri(f: Fetcher): string {
    JoinWith([f.releaseUrl, "traveling-ruby-" + Platform(f) + ".tar.gz"], "/")
  }

  function NativeGemLocalPath(f: Fetcher, name: string, version: string): string {
    f.downloadDir + "/" + name + "-" + version + "-" + Platform(f) + ".tar.gz"
  }

  function NativeGemRemoteUri(f: Fetcher, name: string, version: string): string {
    JoinWith([f.releaseUrl, "traveling-ruby-gems-" + Platform(f) + "/" + name + "-" + version + ".tar.gz"], "/")
  }

  // Net::HTTP's response classes are chosen by the status code's first digit.
  predicate IsSuccess(status: nat) { 200 <= status < 300 }
  predicate IsRedirection(status: nat) { 300 <= status < 400 }
  const NotFound: nat := 404

  /** The requests a fetch sends, in order, and the body it obtains or the error it raises. */
  datatype Trace = Trace(requests: seq<string>, result: Result<string>)

  /** How one response that is not followed any further ends the fetch of `uri`. */
  function Verdict(response: Response, uri: string): Result<string> {
    if IsSuccess(response.status) then Ok(response.body)
    else if IsRedirection(response.status) then
      Err(TooManyRedirectsError("Exhausted redirect limit, ended up at " + uri))
    else if response.status == NotFound then
      Err(NotFoundError(uri + " doesn't exist"))
    else
      Err(UnknownResponseError(DecimalString(response.status) + " '" + response.body + "' returned when fetching " + uri))
  }

  /** `fetch(uri, local_uri, limit)` on a cache miss: a redirect is followed while budget remains. */
  function Follow(server: string -> Response, uri: string, limit: nat): Trace
    decreases limit
  {
    var response := server(uri);
    if IsRedirection(response.status) && limit > 0 then
      var rest := Follow(server, response.location, limit - 1);
      Trace([uri] + rest.requests, rest.result)
    else
      Trace([uri], Verdict(response, uri))
  }

  /** The effect of `fetch(remote, local, limit)` on the tree, the log and the caller. */
  datatype FetchOutcome = FetchOutcome(files: map<string, FileEntry>, events: seq<Event>, result: Result<string>)

  function Fetched(files: map<string, FileEntry>, dirs: set<string>, server: string -> Response,
                   remote: string, local: string, limit: nat): FetchOutcome
  {
    if local in files || local in dirs then FetchOutcome(files, [], Ok(local))
    else
      var t := Follow(server, remote, limit);
      match t.result
      case Ok(body) =>
        if ParentExists(dirs, local) then
          FetchOutcome(files[local := FileEntry(body, DefaultMode)], Requests(t.requests) + [WriteFile(local, body)], Ok(local))
        else
          FetchOutcome(files, Requests(t.requests) + [WriteFile(local, body)], Err(FileError("ENOENT", local)))
      case Err(e) =>
        FetchOutcome(files, Requests(t.requests), Err(e))
  }

  /**
   * `fetch(remote_uri, local_uri, limit)`: recursive like the Ruby method, so
   * every hop checks the cache path again before it sends its request.
   */
  method Fetch(host: Host, remote: string, local: string, limit: nat) returns (r: Result<string>)
    modifies host
    ensures var o := Fetched(old(host.files), old(host.dirs), host.server, remote, local, limit);
      host.files == o.files && host.log == old(host.log) + o.events && r == o.result
    ensures host.dirs == old(host.dirs)
    decreases limit
  {
    if host.Exists(local) {
      return Ok(local);
    }
    var response := host.Get(remote);
    assert Requests([remote]) == [Request(remote)];
    if !IsRedirection(response.status) || limit == 0 {
      assert Follow(host.server, remote, limit) == Trace([remote], Verdict(response, remote));
    }
    if IsSuccess(response.status) {
      // The cache path was just seen not to exist, so only a missing parent can make opening it fail.
      var w := host.Write(local, response.body);
      r := if w.Ok? then Ok(local) else Err(w.error);
    } else if IsRedirection(response.status) {
      if limit > 0 {
        ghost var before := host.log;
        r := Fetch(host, response.location, local, limit - 1);
        ghost var rest := Follow(host.server, response.location, limit - 1);
        ghost var o := Fetched(old(host.files), old(host.dirs), host.server, remote, local, limit);
        ghost var inner := Fetched(old(host.files), old(host.dirs), host.server, response.location, local, limit - 1);
        assert Follow(host.server, remote, limit) == Trace([remote] + rest.requests, rest.result);
        RequestsCons(remote, rest.requests);
        assert host.log == before + inner.events;
        assert before == old(host.log) + [Request(remote)];
        if rest.result.Ok? {
          ghost var w := [WriteFile(local, rest.result.value)];
          assert inner.events == Requests(rest.requests) + w;
          assert o.events == [Request(remote)] + Requests(rest.requests) + w;
        } else {
          assert inner.events == Requests(rest.requests);
          assert o.events == [Request(remote)] + Requests(rest.requests);
        }
        assert o.result == inner.result && o.files == inner.files;
        assert o.events == [Request(remote)] + inner.events;
        AppendAssoc(old(host.log), [Request(remote)], inner.events);
      } else {
        r := Err(TooManyRedirectsError("Exhausted redirect limit, ended up at " + remote));
      }
    } else if response.status == NotFound {
      r := Err(NotFoundError(remote + " doesn't exist"));
    } else {
      r := Err(UnknownResponseError(DecimalString(response.status) + " '" + response.body + "' returned when fetching " + remote));
    }
  }

  lemma AppendAssoc<T>(a: seq<T>, b: seq<T>, c: seq<T>)
    ensures a + b + c == a + (b + c)
  {
  }

  lemma RequestsCons(uri: string, uris: seq<string>)
    ensures Requests([uri] + uris) == [Request(uri)] + Requests(uris)
  {
  }

  /** `fetch_ruby` */
  method FetchRuby(f: Fetcher, host: Host) returns (r: Result<string>)
    modifies host
    ensures var o := Fetched(old(host.files), old(host.dirs), host.server, RubyRemoteUri(f), RubyLocalPath(f), RedirectLimit);
      host.files == o.files && host.log == old(host.log) + o.events && r == o.result
    ensures host.dirs == old(host.dirs)
  {
    r := Fetch(host, RubyRemoteUri(f), RubyLocalPath(f), RedirectLimit);
  }

  /** `fetch_native_gem(name, version)` */
  method FetchNativeGem(f: Fetcher, host: Host, name: string, version: string) returns (r: Result<string>)
    modifies host
    ensures var o := Fetched(old(host.files), old(host.dirs), host.server,
                             NativeGemRemoteUri(f, name, version), NativeGemLocalPath(f, name, version), RedirectLimit);
      host.files == o.files && host.log == old(host.log) + o.events && r == o.result
    ensures host.dirs == old(host.dirs)
  {
    r := Fetch(host, NativeGemRemoteUri(f, name, version), NativeGemLocalPath(f, name, version), RedirectLimit);
  }

  /**
   * `||` in the constructor: an option that is absent, `nil` or `false` falls
   * back to the running Ruby's version and the public release server; a string
   * option is used as given.
   */
  lemma NewFetcherOptions(downloadDir: string, target: string, trVersion: string,
                          options: Hash, runningRubyVersion: string, v: string, u: string)
    ensures var f := NewFetcher(downloadDir, target, trVersion, options, runningRubyVersion);
      && f.downloadDir == downloadDir && f.target == target && f.trVersion == trVersion
      && (!Truthy(Lookup(options, RubyVersion)) ==> f.rubyVersion == runningRubyVersion)
      && (!Truthy(Lookup(options, TrReleaseUrl)) ==> f.releaseUrl == DefaultReleaseUrl)
      && (Lookup(options, RubyVersion) == Str(v) ==> f.rubyVersion == v)
      && (Lookup(options, TrReleaseUrl) == Str(u) ==> f.releaseUrl == u)
  {
  }

  /** The runtime's cache file lies in the directory `setup` creates. */
  lemma RubyCacheInDownloadDir(f: Fetcher)
    ensures Under(RubyLocalPath(f), f.downloadDir)
  {
    var rest := "/ruby-" + Platform(f) + ".tar.gz";
    assert RubyLocalPath(f) == f.downloadDir + rest;
    assert rest[0] == '/';
    SlashChild(f.downloadDir, rest);
  }

  /** So does every native gem's. */
  lemma GemCacheInDownloadDir(f: Fetcher, name: string, version: string)
    ensures Under(NativeGemLocalPath(f, name, version), f.downloadDir)
  {
    var rest := "/" + name + "-" + version + "-" + Platform(f) + ".tar.gz";
    assert NativeGemLocalPath(f, name, version) == f.downloadDir + rest;
    assert rest[0] == '/';
    SlashChild(f.downloadDir, rest);
  }

  /** A path built as `"#{d}/..."` lies below `d`. */
  lemma SlashChild(d: string, rest: string)
    requires |rest| > 0 && rest[0] == '/'
    ensures Under(d + rest, d)
  {
    if !EndsWith(d, "/") {
      assert (d + rest)[..|d| + 1] == d + "/";
    }
  }

  /**
   * Once `setup` has made the download directory, a download can be written:
   * the cache files lie directly in it, as long as the directory is named
   * without a trailing `/` and the versions and target contain none.
   */
  lemma CacheParentIsDownloadDir(f: Fetcher, dirs: set<string>, name: string, version: string)
    requires |f.downloadDir| > 0 && f.downloadDir[|f.downloadDir| - 1] != '/'
    requires '/' !in Platform(f) && '/' !in name && '/' !in version
    requires f.downloadDir in dirs
    ensures ParentExists(dirs, RubyLocalPath(f))
    ensures ParentExists(dirs, NativeGemLocalPath(f, name, version))
  {
    var ruby := "ruby-" + Platform(f) + ".tar.gz";
    var gem := name + "-" + version + "-" + Platform(f) + ".tar.gz";
    assert RubyLocalPath(f) == f.downloadDir + "/" + ruby;
    assert NativeGemLocalPath(f, name, version) == f.downloadDir + "/" + gem;
    assert '/' !in ruby && '/' !in gem;
    DirnameOfChild(f.downloadDir, ruby);
    DirnameOfChild(f.downloadDir, gem);
  }

  /** The runtime's cache file never coincides with a native gem's, whatever the gem is called. */
  lemma RubyAndGemPathsDistinct(f: Fetcher, name: string, version: string)
    ensures RubyLocalPath(f) != NativeGemLocalPath(f, name, version)
  {
    var ruby, gem := RubyLocalPath(f), NativeGemLocalPath(f, name, version);
    var d := |f.downloadDir| + 1;
    if |ruby| == |gem| {
      // "ruby-" is five characters long, so the dash after the gem's name falls on a letter of "ruby".
      assert |name| + |version| == 3;
      assert gem[d + |name|] == '-';
      assert ruby[d + |name|] in "ruby";
    }
  }

  /**
   * Two native gems share a cache file only if they are the same gem, as long
   * as versions contain no dash (the name may).
   */
  lemma GemPathsInjective(f: Fetcher, n1: string, v1: string, n2: string, v2: string)
    requires '-' !in v1 && '-' !in v2
    requires NativeGemLocalPath(f, n1, v1) == NativeGemLocalPath(f, n2, v2)
    ensures n1 == n2 && v1 == v2
  {
    var tail := "-" + Platform(f) + ".tar.gz";
    var s1, s2 := n1 + "-" + v1, n2 + "-" + v2;
    assert s1 == s2 by {
      var pre := f.downloadDir + "/";
      assert NativeGemLocalPath(f, n1, v1) == pre + s1 + tail;
      assert NativeGemLocalPath(f, n2, v2) == pre + s2 + tail;
      MiddleEqual(pre, s1, s2, tail);
    }
    NameVersionInjective(n1, v1, n2, v2);
  }

  lemma MiddleEqual(pre: string, s1: string, s2: string, tail: string)
    requires pre + s1 + tail == pre + s2 + tail
    ensures s1 == s2
  {
    var p := pre + s1 + tail;
    assert |s1| == |s2|;
    assert s1 == p[|pre|..|pre| + |s1|];
    assert s2 == (pre + s2 + tail)[|pre|..|pre| + |s2|];
  }

  /** `<name>-<version>` determines both parts when the version has no dash. */
  lemma NameVersionInjective(n1: string, v1: string, n2: string, v2: string)
    requires '-' !in v1 && '-' !in v2
    requires n1 + "-" + v1 == n2 + "-" + v2
    ensures n1 == n2 && v1 == v2
  {
    var s := n1 + "-" + v1;
    assert s == n2 + "-" + v2;
    // The dash before each version sits at the same place.
    assert s[|s| - 1 - |v1|] == '-';
    assert (n2 + "-" + v2)[|s| - 1 - |v2|] == '-';
    if |v1| != |v2| {
      assert false;
    }
    assert n1 == s[..|n1|] && n2 == (n2 + "-" + v2)[..|n2|];
    assert v1 == s[|s| - |v1|..] && v2 == (n2 + "-" + v2)[|s| - |v2|..];
  }

  /** Without that proviso two different gems can collide: `a-b` 1 and `a` b-1. */
  lemma GemPathsCollide(f: Fetcher)
    ensures NativeGemLocalPath(f, "a-b", "1") == NativeGemLocalPath(f, "a", "b-1")
  {
    assert "a-b" + "-" + "1" == "a" + "-" + "b-1";
  }

  /**
   * The shape of every redirect chain: it starts at `uri`, each request but
   * the last was answered by a redirect to the next one, it holds at most
   * `limit + 1` requests (all of them when the last was a redirect too), and
   * the last response decides the result.
   */
  lemma {:induction false} FollowChain(server: string -> Response, uri: string, limit: nat)
    ensures var t := Follow(server, uri, limit);
      && 1 <= |t.requests| <= limit + 1
      && t.requests[0] == uri
      && (forall i :: 0 <= i < |t.requests| - 1 ==>
            IsRedirection(server(t.requests[i]).status) && server(t.requests[i]).location == t.requests[i + 1])
      && var last := t.requests[|t.requests| - 1];
         t.result == Verdict(server(last), last)
         && (IsRedirection(server(last).status) ==> |t.requests| == limit + 1)
    decreases limit
  {
    var response := server(uri);
    if IsRedirection(response.status) && limit > 0 {
      FollowChain(server, response.location, limit - 1);
    }
  }

  /** A chain in that shape is the only one: `Follow` is determined by it. */
  lemma {:induction false} FollowOfChain(server: string -> Response, chain: seq<string>, limit: nat)
    requires 1 <= |chain| <= limit + 1
    requires forall i :: 0 <= i < |chain| - 1 ==>
      IsRedirection(server(chain[i]).status) && server(chain[i]).location == chain[i + 1]
    requires IsRedirection(server(chain[|chain| - 1]).status) ==> |chain| == limit + 1
    ensures Follow(server, chain[0], limit) ==
      Trace(chain, Verdict(server(chain[|chain| - 1]), chain[|chain| - 1]))
    decreases limit
  {
    if |chain| > 1 {
      FollowOfChain(server, chain[1..], limit - 1);
      assert chain == [chain[0]] + chain[1..];
    }
  }

  /** A server that always redirects to the same URI costs eleven requests and names that URI. */
  lemma RedirectLoopExhausts(server: string -> Response, uri: string)
    requires IsRedirection(server(uri).status) && server(uri).location == uri
    ensures Follow(server, uri, RedirectLimit) ==
      Trace(seq(RedirectLimit + 1, _ => uri), Err(TooManyRedirectsError("Exhausted redirect limit, ended up at " + uri)))
  {
    var chain := seq(RedirectLimit + 1, _ => uri);
    FollowOfChain(server, chain, RedirectLimit);
  }

  /**
   * What `fetch` promises its caller: it returns the cache path or raises;
   * on success the path holds the body of the response the chain ended in,
   * and on failure nothing is written. The chain's error comes first; a
   * successful chain still fails when the cache path's directory is missing.
   */
  lemma FetchedEffect(files: map<string, FileEntry>, dirs: set<string>, server: string -> Response,
                      remote: string, local: string, limit: nat)
    ensures var o := Fetched(files, dirs, server, remote, local, limit);
      var t := Follow(server, remote, limit);
      && (o.result.Ok? ==> o.result.value == local && (local in o.files || local in dirs))
      && (local in files || local in dirs ==> o.files == files && o.events == [])
      && (local !in files && local !in dirs ==>
            (o.result.Ok? <==> t.result.Ok? && ParentExists(dirs, local))
            && (o.result.Ok? ==> o.files == files[local := FileEntry(t.result.value, DefaultMode)])
            && (o.result.Err? ==> o.files == files)
            && (t.result.Err? ==> o.result == t.result)
            && (t.result.Ok? && !ParentExists(dirs, local) ==> o.result == Err(FileError("ENOENT", local)))
            && |o.events| <= limit + 2)
  {
    FollowChain(server, remote, limit);
  }

  /** A second fetch of the same artifact after a successful one sends nothing and changes nothing. */
  lemma FetchIdempotent(files: map<string, FileEntry>, dirs: set<string>, server: string -> Response,
                        remote: string, local: string, limit: nat)
    requires Fetched(files, dirs, server, remote, local, limit).result.Ok?
    ensures var o := Fetched(files, dirs, server, remote, local, limit);
      var again := Fetched(o.files, dirs, server, remote, local, limit);
      again == FetchOutcome(o.files, [], Ok(local))
  {
  }
}
