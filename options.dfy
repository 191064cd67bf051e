/**
 * Ruby option hashes as the tool passes them around: symbol keys mapped to loosely typed values. A missing key reads
 * as `nil`, and `||=` replaces both `nil` and `false`.
 */
module Options {

  /**
   * The symbol keys the tool reads; `Other` stands for any symbol none of
   * the others names (a caller may pass keys the tool never looks at).
   */
  datatype Key =
    | AppDir | AppName | BuildDir | DownloadDir | ArchiveName
    | Files | Executables | GemExecutables | Target | TravelingRubyVersion
    | WithoutGroups | RubyVersion | TrReleaseUrl | BuildCommand
    | BundleIgnoreConfig | ShellOption | Metadata
    | Other(name: string)

  datatype Value =
    | Nil
    | Bool(flag: bool)
    | Str(s: string)
    | Strs(items: seq<string>)
    | Pairs(pairs: seq<(string, string)>)
    | Table(entries: map<string, string>)

  type Hash = map<Key, Value>

  /** `h[k]`. */
  function Lookup(h: Hash, k: Key): Value {
    if k in h then h[k] else Nil
  }

  /** Ruby truthiness: everything except `nil` and `false`. */
  predicate Truthy(v: Value) {
    !(v.Nil? || v == Bool(false))
  }

  /** `h[k] ||= default`: only a falsy entry is replaced; no other key changes. */
  function OrAssign(h: Hash, k: Key, default: Value): (r: Hash)
    ensures Lookup(r, k) == if Truthy(Lookup(h, k)) then Lookup(h, k) else default
    ensures forall j :: j != k ==> Lookup(r, j) == Lookup(h, j)
    ensures r.Keys <= h.Keys + {k}
  {
    if Truthy(Lookup(h, k)) then h else h[k := default]
  }

  /** The string a string-valued option holds (only read where it is known to be a `Str`). */
  function StrOf(h: Hash, k: Key): string {
    match Lookup(h, k)
    case Str(s) => s
    case _ => ""
  }

  /** `h.merge(options)`: a new hash in which the options win on conflicting keys. */
  function Merge(h: Hash, options: Hash): (r: Hash)
    ensures r.Keys == h.Keys + options.Keys
    ensures forall k :: k in options ==> r[k] == options[k]
    ensures forall k :: k in h && k !in options ==> r[k] == h[k]
  {
    h + options
  }

  /**
   * A mutable Ruby Hash. Archive and Archiver keep a reference to the hash
   * their caller passed and fill it in place, so it is an object here.
   */
  class ConfigHash {
    var entries: Hash

    constructor (entries: Hash)
      ensures this.entries == entries
    {
      this.entries := entries;
    }
  }
}
