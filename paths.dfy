/** The POSIX path helpers of `os.path` that the extractors and formatters use. */
module Paths {
  import opened Text

  /** Index of the last `c` in `s`, or -1 when there is none (`str.rfind`). */
  function LastIndexOf(s: string, c: char): (r: int)
    ensures -1 <= r < |s|
    ensures r >= 0 ==> s[r] == c
    ensures forall k :: r < k < |s| ==> s[k] != c
    decreases |s|
  {
    if s == [] then -1
    else if s[|s| - 1] == c then |s| - 1
    else LastIndexOf(s[..|s| - 1], c)
  }

  /** The folder part that `os.path.join` puts in front of a relative name. */
  function FolderPrefix(folder: string): string {
    if folder == [] || folder[|folder| - 1] == '/' then folder else folder + "/"
  }

  /**
   * `os.path.join(folder, name)`: an absolute `name` replaces the folder; otherwise a
   * `/` is inserted unless the folder is empty or already ends with one.
   */
  function PathJoin(folder: string, name: string): (r: string)
    ensures StartsWith(name, "/") ==> r == name
    ensures !StartsWith(name, "/") ==> r == FolderPrefix(folder) + name
  {
    if StartsWith(name, "/") then name
    else if folder == [] || folder[|folder| - 1] == '/' then folder + name
    else folder + "/" + name
  }

  /**
   * Within one folder, two names that are both relative (or both absolute) give the
   * same path only when they are the same name.
   */
  lemma PathJoinInjective(folder: string, a: string, b: string)
    requires StartsWith(a, "/") == StartsWith(b, "/")
    requires PathJoin(folder, a) == PathJoin(folder, b)
    ensures a == b
  {
    if !StartsWith(a, "/") {
      var f := FolderPrefix(folder);
      assert a == (f + a)[|f|..];
      assert b == (f + b)[|f|..];
    }
  }

  /** A relative name stays relative when a text that does not start with `/` is appended. */
  lemma RelativeExtended(name: string, ext: string)
    requires !StartsWith(name, "/") && (ext == [] || ext[0] != '/')
    ensures !StartsWith(name + ext, "/")
  {
    var t := name + ext;
    if t != [] {
      assert t[..1] == [t[0]];
      assert t[0] == if name != [] then name[0] else ext[0];
      if name != [] {
        assert name[..1] == [name[0]];
      }
    }
  }

  /** Two different names, both relative or both absolute, give different paths in one folder. */
  lemma PathJoinDistinct(folder: string, a: string, b: string)
    requires StartsWith(a, "/") == StartsWith(b, "/") && a != b
    ensures PathJoin(folder, a) != PathJoin(folder, b)
  {
    if PathJoin(folder, a) == PathJoin(folder, b) {
      PathJoinInjective(folder, a, b);
    }
  }

  /** `os.path.split(p)[-1]`: the last path component of `p`. */
  function BaseName(p: string): (r: string)
    ensures '/' !in r
    ensures |r| <= |p| && p[|p| - |r|..] == r
    ensures |r| < |p| ==> p[|p| - |r| - 1] == '/'
  {
    p[LastIndexOf(p, '/') + 1..]
  }

  /** True when every character of `s` is a dot. */
  predicate AllDots(s: string) {
    forall k :: 0 <= k < |s| ==> s[k] == '.'
  }

  /**
   * `os.path.splitext(p)[0]`: `p` without its extension. The extension starts at the
   * last dot of the last path component, unless everything in that component before
   * the dot is a dot too (so `".bashrc"` has no extension).
   */
  function SplitExtRoot(p: string): (root: string)
    ensures |root| <= |p| && root == p[..|root|]
    ensures root != p ==> p[|root|] == '.' && '.' !in p[|root| + 1..] && '/' !in p[|root| + 1..]
    ensures root != p ==> !AllDots(BaseName(root))
  {
    var sepIndex := LastIndexOf(p, '/');
    var dotIndex := LastIndexOf(p, '.');
    if dotIndex > sepIndex && !AllDots(p[sepIndex + 1..dotIndex]) then
      var root := p[..dotIndex];
      LastIndexOfPrefix(p, '/', dotIndex);
      assert BaseName(root) == p[sepIndex + 1..dotIndex];
      NoCharAfterLast(p, dotIndex);
      root
    else p
  }

  /** Past the last dot of `p` there is neither a dot nor a slash. */
  lemma NoCharAfterLast(p: string, dotIndex: int)
    requires 0 <= dotIndex < |p|
    requires dotIndex == LastIndexOf(p, '.') && LastIndexOf(p, '/') < dotIndex
    ensures '.' !in p[dotIndex + 1..] && '/' !in p[dotIndex + 1..]
  {
    var t := p[dotIndex + 1..];
    forall k | 0 <= k < |t| ensures t[k] != '.' && t[k] != '/' {
      assert t[k] == p[dotIndex + 1 + k];
    }
  }

  /** Cutting `s` after the last `c` keeps that `c` as the last one. */
  lemma LastIndexOfPrefix(s: string, c: char, n: nat)
    requires LastIndexOf(s, c) < n <= |s|
    ensures LastIndexOf(s[..n], c) == LastIndexOf(s, c)
    decreases |s|
  {
    if n < |s| {
      assert s[..|s| - 1][..n] == s[..n];
      LastIndexOfPrefix(s[..|s| - 1], c, n);
    }
  }

  /**
   * The use in the GeoTIFF formatter: a file name `stem + "." + ext` whose stem has a
   * character other than a dot loses exactly `"." + ext`.
   */
  lemma SplitExtOfFileName(stem: string, ext: string)
    requires '/' !in stem && '/' !in ext && '.' !in ext
    requires !AllDots(stem)
    ensures SplitExtRoot(stem + "." + ext) == stem
  {
    var p := stem + "." + ext;
    assert forall k :: 0 <= k < |p| ==> p[k] != '/';
    assert LastIndexOf(p, '/') == -1;
    assert LastIndexOf(p, '.') == |stem| by {
      assert p[|stem|] == '.';
      assert forall k :: |stem| < k < |p| ==> p[k] == ext[k - |stem| - 1];
    }
    assert p[0..|stem|] == stem;
  }
}
