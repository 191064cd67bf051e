/**
 * `Tara::Archiver` (lib/tara/archiver.rb): the archiver a release tool is
 * handed. It keeps a configuration hash with a `:metadata` entry, names the
 * kind of artifact it makes, and creates an archive from its configuration
 * merged with per-call options.
 */
module Archiver {
  import opened Errors
  import opened Text
  import opened Options
  import opened Hosts
  import A = Archive

  /** `extension`: archives are gzipped tarballs. */
  function Extension(): string {
    "tgz"
  }

  /** `content_type`: the media type of what `Extension` names. */
  function ContentType(): string {
    "application/x-gzip"
  }

  /** The archive name `Archive.new` makes up carries this archiver's extension. */
  lemma DefaultArchiveNameExtension(config: Hash, pwd: string)
    requires !Truthy(Lookup(config, ArchiveName))
    ensures var r := A.ResolveDefaults(config, pwd);
      Lookup(r, ArchiveName).Str? && EndsWith(StrOf(r, ArchiveName), "." + Extension())
  {
    var r := A.ResolveDefaults(config, pwd);
    A.ResolveLine(config, pwd, ArchiveName);
    var name := A.StrOfValue(Lookup(r, AppName));
    assert Lookup(r, ArchiveName) == Str(name + ".tgz");
    assert (name + ".tgz")[|name|..] == ".tgz";
  }

  /**
   * An option passed to `create` that is set reaches the archive as given:
   * the options win over the archiver's configuration, and `initialize` of
   * the archive keeps every set value.
   */
  lemma OptionsWin(config: Hash, options: Hash, pwd: string, k: Key)
    requires k in options && Truthy(options[k])
    ensures Lookup(A.ResolveDefaults(Merge(config, options), pwd), k) == options[k]
  {
    if 0 <= A.Line(k) {
      A.ResolveLine(Merge(config, options), pwd, k);
    } else {
      A.ResolveKeepsOthers(Merge(config, options), pwd, k);
    }
  }

  /** An option the archiver keeps but `create` does not pass over reaches the archive unchanged, unless it has a default. */
  lemma ConfigurationReaches(config: Hash, options: Hash, pwd: string, k: Key)
    requires k !in options && A.Line(k) < 0
    ensures Lookup(A.ResolveDefaults(Merge(config, options), pwd), k) == Lookup(config, k)
  {
    A.ResolveKeepsOthers(Merge(config, options), pwd, k);
  }

  /** The configuration the archive of `create` runs with: the archiver's merged with the options, defaults filled in. */
  function Merged(config: Hash, options: Hash, pwd: string): (c: Hash)
    requires A.WellTyped(Merge(config, options))
    ensures A.Ready(c)
    ensures forall k :: k in options && Truthy(options[k]) ==> Lookup(c, k) == options[k]
  {
    A.ResolvedAfterDefaults(Merge(config, options), pwd);
    A.ResolvedReady(A.ResolveDefaults(Merge(config, options), pwd));
    forall k | k in options && Truthy(options[k])
      ensures Lookup(A.ResolveDefaults(Merge(config, options), pwd), k) == options[k]
    {
      OptionsWin(config, options, pwd, k);
    }
    A.ResolveDefaults(Merge(config, options), pwd)
  }

  class Archiver {
    const config: ConfigHash

    /** `Archiver.new(config)`: keeps the caller's hash and sets `:metadata` to `{}` unless it is set. */
    constructor (config: ConfigHash)
      modifies config
      ensures this.config == config
      ensures Truthy(Lookup(old(config.entries), Metadata)) ==> Lookup(config.entries, Metadata) == Lookup(old(config.entries), Metadata)
      ensures !Truthy(Lookup(old(config.entries), Metadata)) ==> Lookup(config.entries, Metadata) == Table(map[])
      ensures forall k :: k != Metadata ==> Lookup(config.entries, k) == Lookup(old(config.entries), k)
      ensures Truthy(MetadataOf())
    {
      this.config := config;
      new;
      config.entries := OrAssign(config.entries, Metadata, Table(map[]));
    }

    /** `metadata`: the `:metadata` entry of the configuration. */
    function MetadataOf(): Value
      reads config
    {
      Lookup(config.entries, Metadata)
    }

    /**
     * `create(options)`: `Archive.create(@config.merge(options))`. The merge
     * is a new hash, so the archive fills in its defaults there and the
     * archiver's configuration stays as it was. `pwd` is the working
     * directory: within one call it is both the directory the archive's
     * defaults are computed from and the one relative matches are looked up
     * from. `tmp` is the fresh directory `Dir.mktmpdir` hands out.
     */
    method Create(host: Host, options: Hash, pwd: string, tmp: string) returns (r: Result<string>)
      requires A.WellTyped(Merge(config.entries, options))
      requires tmp !in host.files && tmp !in host.dirs
      modifies host
      ensures config.entries == old(config.entries)
      ensures var c := Merged(old(config.entries), options, pwd);
        var o := A.CreateOutcome(host, c, tmp, pwd, old(host.files), old(host.dirs));
        Reached(host, old(host.log), o) && r == A.CreateResult(c, o)
    {
      var merged := new ConfigHash(Merge(config.entries, options));
      var archive := new A.Archive(merged, pwd);
      assert merged.entries == Merged(config.entries, options, pwd);
      r := archive.Create(host, tmp, pwd);
    }
  }
}
