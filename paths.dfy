/** POSIX path helpers: `os.path.dirname` and two-part `os.path.join`. */
module Paths {
  /** Index just past the last '/', or 0 when there is none. */
  function AfterLastSlash(p: string): (k: nat)
    ensures k <= |p|
    ensures k > 0 ==> p[k - 1] == '/'
    ensures forall i | k <= i < |p| :: p[i] != '/'
  {
    if p == [] then 0
    else if p[|p| - 1] == '/' then |p|
    else AfterLastSlash(p[..|p| - 1])
  }

  function StripTrailingSlashes(s: string): (r: string)
    ensures |r| <= |s| && r == s[..|r|]
    ensures r == [] || r[|r| - 1] != '/'
  {
    if s != [] && s[|s| - 1] == '/' then StripTrailingSlashes(s[..|s| - 1]) else s
  }

  /** `os.path.dirname`: everything up to the last '/', with trailing slashes removed
      unless the head consists of slashes only. */
  function Dirname(p: string): string {
    var head := p[..AfterLastSlash(p)];
    var stripped := StripTrailingSlashes(head);
    if stripped == [] then head else stripped
  }

  /** `os.path.join(d, name)` for a relative `name`. */
  function Join(d: string, name: string): string {
    if d == [] || d[|d| - 1] == '/' then d + name else d + "/" + name
  }

  /** The directory part is empty exactly when the path has no '/'. */
  lemma DirnameEmpty(p: string)
    ensures Dirname(p) == [] <==> forall i | 0 <= i < |p| :: p[i] != '/'
  {
    var k := AfterLastSlash(p);
    if k > 0 {
      assert p[..k][k - 1] == '/';
    }
  }

  /** A slash-free suffix does not move the last '/'. */
  lemma {:induction false} AfterLastSlashAppend(s: string, f: string)
    requires forall i | 0 <= i < |f| :: f[i] != '/'
    ensures AfterLastSlash(s + f) == AfterLastSlash(s)
    decreases |f|
  {
    if f != [] {
      var g := f[..|f| - 1];
      assert (s + f)[..|s + f| - 1] == s + g;
      AfterLastSlashAppend(s, g);
    } else {
      assert s + f == s;
    }
  }

  /** Stripping trailing slashes leaves nothing exactly when the string is all slashes. */
  lemma {:induction false} StripAllSlashes(s: string)
    ensures StripTrailingSlashes(s) == [] <==> forall i | 0 <= i < |s| :: s[i] == '/'
    decreases |s|
  {
    if s != [] && s[|s| - 1] == '/' {
      StripAllSlashes(s[..|s| - 1]);
      assert forall i | 0 <= i < |s| - 1 :: s[..|s| - 1][i] == s[i];
    }
  }

  /** A directory part is empty, does not end in '/', or is made of slashes only. */
  lemma DirnameShape(p: string)
    ensures var d := Dirname(p);
      d == [] || d[|d| - 1] != '/' || forall i | 0 <= i < |d| :: d[i] == '/'
  {
    var head := p[..AfterLastSlash(p)];
    StripAllSlashes(head);
  }

  /** Joining a slash-free name onto a directory and taking the directory part gives the
      directory back, for every directory a `dirname` can return. */
  lemma DirnameJoin(d: string, name: string)
    requires forall i | 0 <= i < |name| :: name[i] != '/'
    requires d == [] || d[|d| - 1] != '/' || forall i | 0 <= i < |d| :: d[i] == '/'
    ensures Dirname(Join(d, name)) == d
  {
    if d == [] {
      AfterLastSlashAppend(d, name);
      assert Join(d, name) == d + name;
    } else if d[|d| - 1] != '/' {
      var withSlash := d + "/";
      AfterLastSlashAppend(withSlash, name);
      assert Join(d, name) == withSlash + name;
      assert (withSlash + name)[..|withSlash|] == withSlash;
      assert AfterLastSlash(withSlash) == |withSlash|;
      assert withSlash[..|withSlash| - 1] == d;
      assert StripTrailingSlashes(withSlash) == StripTrailingSlashes(d) == d;
    } else {
      AfterLastSlashAppend(d, name);
      assert Join(d, name) == d + name;
      assert (d + name)[..|d|] == d;
      StripAllSlashes(d);
    }
  }
}
