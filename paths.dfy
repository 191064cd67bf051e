/**
 * Path arithmetic as Ruby's `File.join`, `File.basename`, `File.dirname` and
 * `Pathname#join` / `Pathname#split` perform it on plain strings. Only the
 * cases the tool relies on are modelled: no `..` resolution, no symlinks.
 */
module Paths {
  import opened Text

  /** The directory part with exactly one separator after it. */
  function DirPrefix(d: string): (r: string)
    ensures EndsWith(r, "/") && StartsWith(r, d)
  {
    if EndsWith(d, "/") then d else d + "/"
  }

  /** `d` without the run of separators it ends in: `a//` gives `a`, and `/` the empty string. */
  function ChompSeparators(d: string): (r: string)
    ensures |r| <= |d| && d[..|r|] == r
    ensures |r| == 0 || r[|r| - 1] != '/'
    ensures forall i :: |r| <= i < |d| ==> d[i] == '/'
    decreases |d|
  {
    if |d| > 0 && d[|d| - 1] == '/' then ChompSeparators(d[..|d| - 1]) else d
  }

  /**
   * `File.join(d, name)`: a separator goes between the parts unless `d`
   * already ends in one; a `name` that brings its own separator makes `d`
   * drop its trailing ones instead.
   */
  function FileJoin(d: string, name: string): string {
    if StartsWith(name, "/") then ChompSeparators(d) + name else DirPrefix(d) + name
  }

  /**
   * Joining leaves one separator at the seam, whichever side brings it: the
   * directory without its trailing separator, `/`, and the name without its
   * leading one, as long as the directory does not end in two.
   */
  lemma JoinSeam(d: string, name: string)
    requires !EndsWith(d, "//")
    ensures var rest := if StartsWith(name, "/") then name[1..] else name;
      FileJoin(d, name) == ChompSeparators(d) + "/" + rest
  {
    if StartsWith(name, "/") {
      LeadingSeparator(ChompSeparators(d), name);
    } else {
      ChompSingle(d);
    }
  }

  /** A name that brings its own separator is that separator and the rest. */
  lemma LeadingSeparator(c: string, name: string)
    requires StartsWith(name, "/")
    ensures c + name == c + "/" + name[1..]
  {
    assert name == name[..1] + name[1..];
  }

  /** A path that does not end in two separators loses at most one to `ChompSeparators`. */
  lemma ChompSingle(d: string)
    requires !EndsWith(d, "//")
    ensures DirPrefix(d) == ChompSeparators(d) + "/"
  {
    if |d| > 0 && d[|d| - 1] == '/' {
      var e := d[..|d| - 1];
      assert |e| == 0 || e[|e| - 1] != '/';
      assert ChompSeparators(e) == e;
      assert d == e + "/";
    }
  }

  /** `File.join("/b", "/x.tgz")` is `/b/x.tgz`, as `File.join("/b", "x.tgz")` is. */
  lemma JoinAbsoluteName()
    ensures FileJoin("/b", "/x.tgz") == "/b/x.tgz" == FileJoin("/b", "x.tgz")
  {
    var b, abs, rel := "/b", "/x.tgz", "x.tgz";
    assert abs[..1] == "/";
    assert rel[..1] != "/" by { assert rel[0] == 'x'; }
    assert b[|b| - 1] == 'b';
    assert b[1..] == "b";
    assert ChompSeparators(b) == b;
    assert DirPrefix(b) == b + "/";
    assert FileJoin(b, abs) == b + abs;
    assert FileJoin(b, rel) == b + "/" + rel;
  }

  /** `Pathname.new(a).join(b)`: an absolute `b` replaces `a`; `.` joined to `b` is `b`. */
  function PathJoin(a: string, b: string): string {
    if StartsWith(b, "/") then b else if a == "." then b else FileJoin(a, b)
  }

  /** `p` is the directory `d` itself or lies below it. */
  predicate Under(p: string, d: string) {
    p == d || StartsWith(p, DirPrefix(d))
  }

  lemma UnderJoin(d: string, name: string)
    requires !StartsWith(name, "/")
    ensures Under(FileJoin(d, name), d)
  {
  }

  /** Joining more components keeps a path below the directory it was below. */
  lemma StrictlyUnderJoin(p: string, d: string, name: string)
    requires StartsWith(p, DirPrefix(d)) && !StartsWith(name, "/")
    ensures StartsWith(FileJoin(p, name), DirPrefix(d))
  {
    var pre := DirPrefix(d);
    assert FileJoin(p, name)[..|pre|] == DirPrefix(p)[..|pre|] == p[..|pre|];
  }

  /**
   * `d[..i]` names a directory on the way to `d`: `d` itself, or the text
   * before a separator that does not follow another one.
   */
  predicate Cut(d: string, i: int) {
    0 < i <= |d| && (i == |d| || (d[i] == '/' && d[i - 1] != '/'))
  }

  /**
   * The directories `FileUtils.mkdir_p(d)` sees to: every ancestor written
   * out in `d`, and `d` itself (neither `/` nor `.` is among them).
   */
  function Lineage(d: string): (r: set<string>)
    ensures |d| > 0 ==> d in r
  {
    assert d[..|d|] == d;
    set i | 0 < i <= |d| && Cut(d, i) :: d[..i]
  }

  /** Every member of `d`'s lineage is `d` or a directory `d` lies below. */
  lemma LineageAbove(d: string, q: string)
    requires q in Lineage(d)
    ensures Under(d, q) && |q| <= |d|
  {
    var i :| 0 < i <= |d| && Cut(d, i) && q == d[..i];
    if i < |d| {
      assert DirPrefix(q) == d[..i + 1];
    }
  }

  /**
   * Making a path below `a` makes, outside `a`, nothing but members of `a`'s
   * own lineage: the ancestors `a` names.
   */
  lemma LineageUnder(d: string, a: string, q: string)
    requires Under(d, a) && q in Lineage(d)
    ensures Under(q, a) || q in Lineage(a)
  {
    var i :| 0 < i <= |d| && Cut(d, i) && q == d[..i];
    var pre := DirPrefix(a);
    if d == a {
    } else if i >= |pre| {
      assert q[..|pre|] == d[..|pre|];
    } else if i == |a| {
      assert q == a;
    } else {
      assert i < |a| && a[..i] == q && Cut(a, i);
    }
  }

  /** The relative path `x/y`. */
  function Sub(x: string, y: string): string {
    x + "/" + y
  }

  /** A relative path that joins as a directory: not empty, not `.`, no `/` at either end. */
  predicate Component(x: string) {
    |x| > 0 && x[0] != '/' && x[|x| - 1] != '/' && x != "."
  }

  /** `z` is `x` followed by one or more further components. */
  predicate Extends(z: string, x: string) {
    StartsWith(z, x + "/")
  }

  lemma SubComponent(x: string, y: string)
    requires Component(x) && |y| > 0 && y[|y| - 1] != '/'
    ensures Component(Sub(x, y)) && Extends(Sub(x, y), x)
  {
    var z := Sub(x, y);
    assert z[..|x + "/"|] == x + "/";
    assert z[0] == x[0] && z[|z| - 1] == y[|y| - 1];
  }

  lemma ExtendsSub(z: string, x: string, y: string)
    requires Extends(z, x)
    ensures Extends(Sub(z, y), x)
  {
    var p := x + "/";
    assert Sub(z, y)[..|p|] == z[..|p|];
  }

  /** `Pathname#join(x, y)` for a relative `y` is the join of the single path `x/y`. */
  lemma JoinJoin(a: string, x: string, y: string)
    requires Component(x) && |y| > 0 && y[0] != '/'
    ensures PathJoin(PathJoin(a, x), y) == PathJoin(a, Sub(x, y))
  {
    var z := Sub(x, y);
    assert z[0] == x[0] && z != "." by {
      assert z[..|x|] == x;
    }
    var base := JoinBase(a);
    JoinRelative(a, x);
    JoinRelative(a, z);
    JoinOnto(base, x, y);
  }

  /** What `Pathname#join` puts in front of a relative path. */
  function JoinBase(a: string): string {
    if a == "." then "" else DirPrefix(a)
  }

  lemma JoinOnto(base: string, x: string, y: string)
    requires Component(x) && |y| > 0 && y[0] != '/'
    requires base == "" || base[|base| - 1] == '/'
    ensures PathJoin(base + x, y) == base + Sub(x, y)
  {
    var p := base + x;
    PrefixOfComponent(base, x);
    assert p != "." by {
      if base != "" {
        assert |p| >= 2;
      }
    }
    assert PathJoin(p, y) == p + "/" + y;
  }

  /** Joining a relative path other than `.` prefixes it with `a` and one separator, unless `a` is `.`. */
  lemma JoinRelative(a: string, z: string)
    requires |z| > 0 && z[0] != '/' && z != "."
    ensures PathJoin(a, z) == JoinBase(a) + z
  {
  }

  lemma PrefixExtends(base: string, x: string, z: string)
    requires Extends(z, x)
    ensures Extends(base + z, base + x)
  {
    var e := x + "/";
    assert (base + z)[..|base + e|] == base + z[..|e|];
    assert base + x + "/" == base + e;
  }

  /** A directory path that does not end in `/`, other than `.`, is followed by exactly one separator. */
  lemma PrefixOfComponent(base: string, x: string)
    requires Component(x)
    ensures var p := base + x; p[|p| - 1] == x[|x| - 1] && DirPrefix(p) == p + "/"
  {
  }

  /** A path that extends `x`, joined onto `a`, lies strictly below `a` joined with `x`. */
  lemma JoinUnder(a: string, x: string, z: string)
    requires Component(x) && Extends(z, x)
    ensures PathJoin(a, x) != "." && StartsWith(PathJoin(a, z), DirPrefix(PathJoin(a, x)))
  {
    assert z[0] == x[0] && z != "." by {
      assert z[..|x + "/"|] == x + "/";
    }
    var base := JoinBase(a);
    JoinRelative(a, x);
    JoinRelative(a, z);
    PrefixExtends(base, x, z);
    PrefixOfComponent(base, x);
    assert base + x != "." by {
      if a != "." {
        assert |base + x| >= 2;
      }
    }
  }

  function StripTrailingSlashes(p: string): string
    decreases |p|
  {
    if |p| > 1 && p[|p| - 1] == '/' then StripTrailingSlashes(p[..|p| - 1]) else p
  }

  /** The text after the last `/` (all of `p` when there is none). */
  function AfterLastSlash(p: string): (r: string)
    ensures '/' !in r
    decreases |p|
  {
    if |p| == 0 then ""
    else if p[|p| - 1] == '/' then ""
    else AfterLastSlash(p[..|p| - 1]) + [p[|p| - 1]]
  }

  /** The text before the last `/` (empty when there is none). */
  function BeforeLastSlash(p: string): string
    decreases |p|
  {
    if |p| == 0 then ""
    else if p[|p| - 1] == '/' then p[..|p| - 1]
    else BeforeLastSlash(p[..|p| - 1])
  }

  /** A text without a separator does not start with one. */
  lemma NoSeparatorNotAbsolute(r: string)
    requires '/' !in r
    ensures !StartsWith(r, "/")
  {
    if |r| > 0 {
      assert r[0] in r;
    }
  }

  /** `File.basename(p)`: the last component, or `/` for the root. */
  function Basename(p: string): (r: string)
    ensures r == "/" || '/' !in r
  {
    var q := StripTrailingSlashes(p);
    if q == "/" then "/" else AfterLastSlash(q)
  }

  /** `File.dirname(p)`. */
  function Dirname(p: string): string {
    var q := StripTrailingSlashes(p);
    if '/' !in q then "."
    else
      var d := BeforeLastSlash(q);
      if d == "" then "/" else StripTrailingSlashes(d)
  }

  /** A relative path as a glob yields it: no leading, trailing or doubled `/`. */
  predicate CleanRelative(p: string) {
    && |p| > 0
    && p[0] != '/'
    && p[|p| - 1] != '/'
    && forall i :: 0 <= i < |p| - 1 ==> !(p[i] == '/' && p[i + 1] == '/')
  }

  /** A single path component. */
  predicate SimpleName(n: string) {
    |n| > 0 && '/' !in n
  }

  lemma {:induction false} LastSlashSplit(p: string)
    requires '/' in p
    ensures p == BeforeLastSlash(p) + "/" + AfterLastSlash(p)
    decreases |p|
  {
    var init := p[..|p| - 1];
    assert p == init + [p[|p| - 1]];
    if p[|p| - 1] != '/' {
      assert '/' in init by {
        var k :| 0 <= k < |p| && p[k] == '/';
        assert init[k] == '/';
      }
      LastSlashSplit(init);
    }
  }

  lemma {:induction false} AfterLastSlashAppend(d: string, n: string)
    requires '/' !in n
    ensures AfterLastSlash(d + "/" + n) == n
    decreases |n|
  {
    var p := d + "/" + n;
    if |n| > 0 {
      assert p[..|p| - 1] == d + "/" + n[..|n| - 1];
      AfterLastSlashAppend(d, n[..|n| - 1]);
      assert n == n[..|n| - 1] + [n[|n| - 1]];
    } else {
      assert p[|p| - 1] == '/';
    }
  }

  lemma {:induction false} BeforeLastSlashAppend(d: string, n: string)
    requires '/' !in n
    ensures BeforeLastSlash(d + "/" + n) == d
    decreases |n|
  {
    var p := d + "/" + n;
    if |n| > 0 {
      assert p[..|p| - 1] == d + "/" + n[..|n| - 1];
      BeforeLastSlashAppend(d, n[..|n| - 1]);
    } else {
      assert p[..|p| - 1] == d;
    }
  }

  /** The directory of a name written after `d` and one `/` is `d`, when `d` does not end in `/`. */
  lemma DirnameOfChild(d: string, n: string)
    requires |d| > 0 && d[|d| - 1] != '/' && SimpleName(n)
    ensures Dirname(d + "/" + n) == d
  {
    var p := d + "/" + n;
    assert p[|p| - 1] == n[|n| - 1];
    assert StripTrailingSlashes(p) == p;
    assert p[|d|] == '/';
    BeforeLastSlashAppend(d, n);
  }

  /** The basename of a name joined onto a directory is that name. */
  lemma BasenameOfJoin(d: string, n: string)
    requires SimpleName(n)
    ensures Basename(FileJoin(d, n)) == n
  {
    var pre := DirPrefix(d);
    var p := FileJoin(d, n);
    assert !StartsWith(n, "/") by {
      assert n[0] in n;
    }
    assert p[|p| - 1] == n[|n| - 1];
    assert StripTrailingSlashes(p) == p;
    var d' := pre[..|pre| - 1];
    assert pre == d' + "/";
    assert p == d' + "/" + n;
    AfterLastSlashAppend(d', n);
    assert |p| >= 2;
  }

  /**
   * `Pathname#split` followed by `File.join` gives back a clean relative path:
   * the top-level case is the bare basename with dirname `.`.
   */
  lemma SplitRoundTrip(p: string)
    requires CleanRelative(p)
    ensures '/' !in p ==> Dirname(p) == "." && Basename(p) == p
    ensures '/' in p ==> FileJoin(Dirname(p), Basename(p)) == p
    ensures SimpleName(Basename(p))
  {
    assert StripTrailingSlashes(p) == p;
    if '/' !in p {
      NoSlashAfterLast(p);
    } else {
      LastSlashSplit(p);
      var b, a := BeforeLastSlash(p), AfterLastSlash(p);
      assert p[|b|] == '/';
      assert p[|p| - 1 - |a|] == '/';
      assert b[|b| - 1] != '/' by {
        assert p[|b| - 1] == b[|b| - 1] && p[|b|] == '/';
      }
      assert p != "/";
      assert StripTrailingSlashes(b) == b;
      assert Dirname(p) == b;
      assert DirPrefix(b) == b + "/";
    }
  }

  lemma {:induction false} NoSlashAfterLast(p: string)
    requires '/' !in p
    ensures AfterLastSlash(p) == p
    decreases |p|
  {
    if |p| > 0 {
      NoSlashAfterLast(p[..|p| - 1]);
      assert p == p[..|p| - 1] + [p[|p| - 1]];
    }
  }
}
