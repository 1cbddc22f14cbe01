/**
 * The parts of Python's `posixpath` and `str` that the client uses to name
 * and classify files: `rfind`, `basename`, `join`, `splitext`, the basename of
 * `normpath`, `lower` and `endswith`.
 */
module Paths {

  // ---------------------------------------------------------------------------
  // Strings
  // ---------------------------------------------------------------------------

  /** `s.rfind(c)`: the index of the last occurrence of `c` in `s`, or -1. */
  function RFind(s: string, c: char): (r: int)
    ensures -1 <= r < |s|
    ensures r >= 0 ==> s[r] == c
    ensures forall k :: r < k < |s| ==> s[k] != c
  {
    if |s| == 0 then -1
    else if s[|s| - 1] == c then |s| - 1
    else RFind(s[..|s| - 1], c)
  }

  /** Lower-casing of one character; only the ASCII letters are folded. */
  function LowerChar(c: char): char
  {
    if 'A' <= c <= 'Z' then (c as int + 32) as char else c
  }

  /** `s.lower()`, restricted to ASCII case folding. */
  function Lower(s: string): (r: string)
    ensures |r| == |s|
  {
    seq(|s|, i requires 0 <= i < |s| => LowerChar(s[i]))
  }

  /** A string without upper-case ASCII letters is its own lower-case form. */
  lemma LowerOfLowercase(s: string)
    requires forall i :: 0 <= i < |s| ==> !('A' <= s[i] <= 'Z')
    ensures Lower(s) == s
  {
  }

  /** `s.endswith(suffix)`. */
  predicate EndsWith(s: string, suffix: string)
  {
    |suffix| <= |s| && s[|s| - |suffix|..] == suffix
  }

  // ---------------------------------------------------------------------------
  // basename and join
  // ---------------------------------------------------------------------------

  /** `os.path.basename(p)`: everything after the last '/'. */
  function Basename(p: string): (r: string)
    ensures '/' !in r
  {
    var i := RFind(p, '/');
    p[i + 1..]
  }

  /**
   * The basename is the text after the last '/': a suffix of the path that is
   * either the whole path or preceded by a '/'.
   */
  lemma BasenameIsLastComponent(p: string)
    ensures var r := Basename(p);
      && |r| <= |p| && p[|p| - |r|..] == r
      && (|r| < |p| ==> p[|p| - |r| - 1] == '/')
  {
  }

  /** `os.path.join(a, b)` for two components. */
  function Join(a: string, b: string): string
  {
    if |b| > 0 && b[0] == '/' then b
    else if a == "" || a[|a| - 1] == '/' then a + b
    else a + "/" + b
  }

  /** A name without '/' is unchanged by `basename`. */
  lemma BasenameOfName(b: string)
    requires '/' !in b
    ensures Basename(b) == b
  {
    assert RFind(b, '/') == -1;
  }

  /**
   * Joining a directory with an entry name that has no '/' gives back the
   * name under `basename`: this is why the batch can reconcile a server
   * result with a listed file by comparing basenames.
   */
  lemma BasenameOfJoin(a: string, b: string)
    requires '/' !in b
    ensures Basename(Join(a, b)) == b
  {
    if a == "" {
      assert Join(a, b) == b;
      BasenameOfName(b);
    } else {
      var x := if a[|a| - 1] == '/' then a else a + "/";
      var p := x + b;
      assert Join(a, b) == p;
      // the last '/' of p is the last character of x
      assert p[|x| - 1] == '/';
      assert forall k :: |x| <= k < |p| ==> p[k] == b[k - |x|];
      assert RFind(p, '/') == |x| - 1;
      assert p[|x|..] == b;
    }
  }

  // ---------------------------------------------------------------------------
  // splitext
  // ---------------------------------------------------------------------------

  /**
   * `os.path.splitext(p)`: the extension starts at the last '.' after the last
   * '/', unless every character between that '/' and the dot is itself a dot
   * (a leading run of dots, as in ".bashrc", is part of the name).
   */
  function SplitExt(p: string): (r: (string, string))
    ensures r.0 + r.1 == p
    ensures r.1 == "" || (r.1[0] == '.' && '.' !in r.1[1..] && '/' !in r.1)
  {
    var sep := RFind(p, '/');
    var dot := RFind(p, '.');
    if dot > sep && NonDotIn(p, sep + 1, dot) then
      (p[..dot], p[dot..])
    else
      (p, "")
  }

  /** Some character of `p[lo..hi]` is not a dot. */
  predicate NonDotIn(p: string, lo: nat, hi: nat)
    requires lo <= hi <= |p|
    decreases hi - lo
  {
    lo < hi && (p[hi - 1] != '.' || NonDotIn(p, lo, hi - 1))
  }

  /** `NonDotIn` holds exactly when a position in the range holds a non-dot. */
  lemma {:induction false} NonDotInExists(p: string, lo: nat, hi: nat)
    requires lo <= hi <= |p|
    ensures NonDotIn(p, lo, hi) <==> exists k :: lo <= k < hi && p[k] != '.'
    decreases hi - lo
  {
    if lo < hi {
      NonDotInExists(p, lo, hi - 1);
    }
  }

  /** `os.path.splitext(p)[0]`, the name without its extension. */
  function Stem(p: string): string
  {
    SplitExt(p).0
  }

  /**
   * The extension is non-empty exactly when the last path component holds a
   * dot with some non-dot character of that component before it; and then
   * the root ends right before the last dot.
   */
  lemma SplitExtCharacterised(p: string)
    ensures var sep := RFind(p, '/');
      SplitExt(p).1 != "" <==>
        exists d, k :: sep < k < d < |p| && p[d] == '.' && p[k] != '.'
    ensures SplitExt(p).1 != "" ==>
      |SplitExt(p).0| == RFind(p, '.') && RFind(p, '/') < RFind(p, '.')
  {
    var sep := RFind(p, '/');
    var dot := RFind(p, '.');
    if dot > sep {
      NonDotInExists(p, sep + 1, dot);
    }
    if exists d, k :: sep < k < d < |p| && p[d] == '.' && p[k] != '.' {
      var d, k :| sep < k < d < |p| && p[d] == '.' && p[k] != '.';
      assert d <= dot;
      assert dot > sep;
      assert sep + 1 <= k < dot && p[k] != '.';
    }
  }

  /**
   * An ordinary file name: no '/', a first character that is not a dot, and
   * a last dot at `d`, which is where its extension starts.
   */
  lemma SplitExtOfPlainName(name: string, d: nat)
    requires '/' !in name && 0 < d < |name| && name[0] != '.' && name[d] == '.'
    requires forall k :: d < k < |name| ==> name[k] != '.'
    ensures SplitExt(name) == (name[..d], name[d..])
  {
    assert RFind(name, '/') == -1;
    assert RFind(name, '.') == d;
    NonDotInExists(name, 0, d);
  }

  // ---------------------------------------------------------------------------
  // basename(normpath(p))
  // ---------------------------------------------------------------------------

  /** `c.join(pieces)`, for a non-empty list of pieces. */
  function JoinWith(pieces: seq<string>, c: char): string
    requires |pieces| >= 1
  {
    if |pieces| == 1 then pieces[0]
    else JoinWith(pieces[..|pieces| - 1], c) + [c] + pieces[|pieces| - 1]
  }

  /**
   * `s.split(c)`: the pieces between occurrences of `c`, always at least one;
   * joining them back with `c` gives `s`.
   */
  function Split(s: string, c: char): (r: seq<string>)
    ensures |r| >= 1
    ensures forall i :: 0 <= i < |r| ==> c !in r[i]
    ensures JoinWith(r, c) == s
  {
    var i := RFind(s, c);
    if i < 0 then
      [s]
    else
      var front := Split(s[..i], c);
      var r := front + [s[i + 1..]];
      assert r[..|r| - 1] == front;
      assert s == s[..i] + [c] + s[i + 1..];
      r
  }

  /**
   * The component list `normpath` builds: empty and "." components vanish,
   * ".." removes the component before it, and a ".." that cannot go up stays
   * (in a relative path) or vanishes (in an absolute one).
   */
  function Resolve(comps: seq<string>, rooted: bool): (r: seq<string>)
    ensures forall i :: 0 <= i < |r| ==> r[i] in comps && r[i] != "" && r[i] != "."
  {
    if |comps| == 0 then []
    else
      var acc := Resolve(comps[..|comps| - 1], rooted);
      var c := comps[|comps| - 1];
      assert forall i :: 0 <= i < |acc| ==> acc[i] in comps[..|comps| - 1];
      if c == "" || c == "." then acc
      else if c != ".." || (!rooted && |acc| == 0) || (|acc| > 0 && acc[|acc| - 1] == "..") then acc + [c]
      else if |acc| > 0 then acc[..|acc| - 1]
      else acc
  }

  /** A component that `normpath` keeps as it is. */
  predicate Ordinary(c: string)
  {
    c != "" && c != "." && c != ".."
  }

  /** ".." cancels the ordinary component right before it. */
  lemma ResolveCancels(comps: seq<string>, c: string, rooted: bool)
    requires Ordinary(c)
    ensures Resolve(comps + [c], rooted) == Resolve(comps, rooted) + [c]
    ensures Resolve(comps + [c, ".."], rooted) == Resolve(comps, rooted)
  {
    var with := comps + [c];
    assert with[..|with| - 1] == comps;
    var both := comps + [c, ".."];
    assert both[..|both| - 1] == with;
  }

  /** `os.path.basename(os.path.normpath(p))`, the folder name used for the batch audit file. */
  function NormBasename(p: string): (r: string)
    ensures '/' !in r
  {
    if p == "" then "."
    else
      var parts := Split(p, '/');
      var comps := Resolve(parts, p[0] == '/');
      if |comps| > 0 then
        assert comps[|comps| - 1] in parts;
        comps[|comps| - 1]
      else if p[0] == '/' then ""
      else "."
  }

  /** A trailing '/' does not change the folder name (`normpath` drops it). */
  lemma NormBasenameTrailingSlash(p: string)
    requires p != ""
    ensures NormBasename(p + "/") == NormBasename(p)
  {
    var q := p + "/";
    assert RFind(q, '/') == |p|;
    assert q[..|p|] == p && q[|p| + 1..] == "";
    assert Split(q, '/') == Split(p, '/') + [""];
    var parts := Split(q, '/');
    assert parts[..|parts| - 1] == Split(p, '/');
  }

  /** The folder name of `p/c` is `c` for an ordinary last component `c`. */
  lemma NormBasenameOfChild(p: string, c: string)
    requires p != "" && '/' !in c && Ordinary(c)
    ensures NormBasename(p + "/" + c) == c
  {
    var q := p + "/" + c;
    assert q[|p|] == '/';
    assert forall k :: |p| < k < |q| ==> q[k] == c[k - |p| - 1];
    assert RFind(q, '/') == |p|;
    assert q[..|p|] == p && q[|p| + 1..] == c;
    var parts := Split(q, '/');
    assert parts == Split(p, '/') + [c];
    var rooted := q[0] == '/';
    ResolveCancels(Split(p, '/'), c, rooted);
    var comps := Resolve(parts, rooted);
    assert comps[|comps| - 1] == c;
  }

  /** A plain directory name is its own folder name. */
  lemma NormBasenameOfName(p: string)
    requires '/' !in p && p != "" && p != "." && p != ".."
    ensures NormBasename(p) == p
  {
    assert RFind(p, '/') == -1;
    assert Split(p, '/') == [p];
    assert [p][..0] == [];
  }

  // ---------------------------------------------------------------------------
  // The two file-type tests
  // ---------------------------------------------------------------------------

  /** The extensions `multiple_f32_inference` accepts, compared after lower-casing. */
  const ImageExtensions: set<string> := {".jpg", ".jpeg", ".png", ".bmp", ".tiff", ".tif"}

  /** `os.path.splitext(name)[1].lower() in image_extensions`. */
  predicate IsImageName(name: string)
  {
    Lower(SplitExt(name).1) in ImageExtensions
  }

  /** `path.lower().endswith('.mp4')`. */
  predicate IsMp4Name(path: string)
  {
    EndsWith(Lower(path), ".mp4")
  }
}
