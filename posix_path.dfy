/** The parts of Python's `posixpath` (`os.path` on POSIX) that the core uses. */
module PosixPath {
  import opened Strings

  /** What `Dirname` can return: empty, only slashes, or a path without a trailing slash. */
  predicate DirShape(d: string) {
    d == [] || AllChar(d, '/') || d[|d| - 1] != '/'
  }

  /** `os.path.basename(p)`: everything after the last `/`. */
  function Basename(p: string): string {
    p[RFind(p, '/') + 1..]
  }

  /** The base name is the part of `p` after its last `/`: a suffix without `/`, preceded by
      a `/` unless it is all of `p`. */
  lemma BasenameShape(p: string)
    ensures '/' !in Basename(p)
    ensures |Basename(p)| <= |p| && p[|p| - |Basename(p)|..] == Basename(p)
    ensures |Basename(p)| < |p| ==> p[|p| - |Basename(p)| - 1] == '/'
    ensures '/' !in p ==> Basename(p) == p
  {
    var i := RFind(p, '/');
    var r := p[i + 1..];
    assert '/' !in r by {
      forall k | 0 <= k < |r| ensures r[k] != '/' { assert r[k] == p[i + 1 + k]; }
    }
    if '/' !in p {
      assert i == -1;
    }
  }

  /** `os.path.dirname(p)`: everything up to the last `/`, trailing slashes removed unless
      nothing but slashes is left. */
  function Dirname(p: string): (r: string)
    ensures DirShape(r)
    ensures |r| <= RFind(p, '/') + 1 && p[..|r|] == r
    ensures '/' !in p ==> r == []
  {
    var head := p[..RFind(p, '/') + 1];
    if head != [] && !AllChar(head, '/') then RStrip(head, '/') else head
  }

  /** `os.path.join(a, b)`: an absolute `b` replaces `a`; otherwise one `/` between them
      unless `a` is empty or already ends with `/`. */
  function Join(a: string, b: string): string {
    if b != [] && b[0] == '/' then b
    else if a == [] || a[|a| - 1] == '/' then a + b
    else a + "/" + b
  }

  /** A joined path is `b` itself when `b` is absolute, and otherwise starts with `a` and
      ends with `b`, with at most one `/` added between them. */
  lemma JoinShape(a: string, b: string)
    ensures b != [] && b[0] == '/' ==> Join(a, b) == b
    ensures !(b != [] && b[0] == '/') ==> EndsWith(Join(a, b), b) && StartsWith(Join(a, b), a)
                                          && |a| + |b| <= |Join(a, b)| <= |a| + |b| + 1
  {
    var r := Join(a, b);
    if !(b != [] && b[0] == '/') {
      if a == [] || a[|a| - 1] == '/' {
        assert r == a + b;
      } else {
        assert r == a + "/" + b;
      }
      assert r[|r| - |b|..] == b;
      assert r[..|a|] == a;
    }
  }

  /** `os.path.splitext(p)`: the extension is the last `.` of the final component and what
      follows it, unless that component is only dots up to it (a hidden file). */
  function SplitExt(p: string): (r: (string, string))
    ensures r.0 + r.1 == p
    ensures r.1 != [] ==> r.1[0] == '.' && NoDotOrSlash(r.1[1..])
  {
    var sep := RFind(p, '/');
    var dot := RFind(p, '.');
    if dot > sep && HasNonDot(p, sep + 1, dot) then
      ExtensionTail(p, dot, sep);
      (p[..dot], p[dot..])
    else (p, [])
  }

  /** Some character of `p[lo..hi]` is not a dot. */
  predicate HasNonDot(p: string, lo: int, hi: int)
    requires 0 <= lo <= hi <= |p|
  {
    exists k :: lo <= k < hi && p[k] != '.'
  }

  lemma ExtensionTail(p: string, dot: int, sep: int)
    requires -1 <= sep < dot < |p|
    requires forall k :: sep < k < |p| ==> p[k] != '/'
    requires forall k :: dot < k < |p| ==> p[k] != '.'
    ensures NoDotOrSlash(p[dot + 1..])
  {
    var tail := p[dot + 1..];
    forall k | 0 <= k < |tail| ensures tail[k] != '.' && tail[k] != '/' {
      assert tail[k] == p[dot + 1 + k];
    }
  }

  predicate NoDotOrSlash(s: string) {
    forall k :: 0 <= k < |s| ==> s[k] != '.' && s[k] != '/'
  }

  lemma NoDotOrSlashAvoids(s: string)
    requires NoDotOrSlash(s)
    ensures '.' !in s && '/' !in s
  {
  }

  /** The last `/` is the one after which no other `/` follows. */
  lemma RFindAt(s: string, c: char, i: int)
    requires -1 <= i < |s| && (i >= 0 ==> s[i] == c)
    requires forall k :: i < k < |s| ==> s[k] != c
    ensures RFind(s, c) == i
  {
  }

  /** A name without `/` joined onto a directory is that directory's entry. */
  lemma BasenameOfJoin(a: string, n: string)
    requires '/' !in n
    ensures Basename(Join(a, n)) == n
  {
    var j := Join(a, n);
    if a == [] {
      assert j == n;
    } else if a[|a| - 1] == '/' {
      assert j == a + n;
      RFindAt(j, '/', |a| - 1);
      assert j[|a|..] == n;
    } else {
      assert j == a + "/" + n;
      RFindAt(j, '/', |a|);
      assert j[|a| + 1..] == n;
    }
  }

  /** The directory of an entry joined onto a directory is that directory. */
  lemma DirnameOfJoin(d: string, n: string)
    requires DirShape(d) && n != [] && '/' !in n
    ensures Dirname(Join(d, n)) == d
  {
    var j := Join(d, n);
    if d == [] {
      assert j == n;
    } else if d[|d| - 1] == '/' {
      assert j == d + n;
      RFindAt(j, '/', |d| - 1);
      assert j[..|d|] == d;
    } else {
      assert j == d + "/" + n;
      RFindAt(j, '/', |d|);
      var head := j[..|d| + 1];
      assert head == d + "/";
      assert head[|d| - 1] != '/';
      assert RStrip(head, '/') == RStrip(d, '/');
    }
  }

  /** Joining `x` and then `y` is joining `x/y` at once, for relative names without
      trailing slashes. */
  lemma JoinTwice(a: string, x: string, y: string)
    requires x != [] && x[0] != '/' && x[|x| - 1] != '/'
    requires y == [] || y[0] != '/'
    ensures Join(Join(a, x), y) == Join(a, x + "/" + y)
  {
    var z := x + "/" + y;
    assert z[0] == x[0];
    var pre := if a == [] || a[|a| - 1] == '/' then a else a + "/";
    assert Join(a, x) == pre + x;
    assert Join(a, z) == pre + z;
    var j := pre + x;
    assert j[|j| - 1] == x[|x| - 1];
    assert Join(j, y) == j + "/" + y;
    assert (pre + x) + "/" + y == pre + (x + "/" + y);
  }

  /** Splitting off the extension never empties a non-empty path. */
  lemma SplitExtStem(p: string)
    requires p != []
    ensures SplitExt(p).0 != []
  {
    var sep := RFind(p, '/');
    var dot := RFind(p, '.');
    if dot > sep && HasNonDot(p, sep + 1, dot) {
      assert |SplitExt(p).0| == dot;
    }
  }
}
