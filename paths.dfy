/** The path and file-name arithmetic of the loader: posixpath.join, posixpath.basename and the
    output-name derivation of process_file. */
module Paths {

  /** posixpath.join(a, b): an absolute b replaces a; otherwise a '/' separates them unless a is
      empty or already ends in one. */
  function Join(a: string, b: string): (r: string)
    ensures |b| > 0 && b[0] == '/' ==> r == b
  {
    if |b| > 0 && b[0] == '/' then b
    else if a == "" || a[|a| - 1] == '/' then a + b
    else a + "/" + b
  }

  /** The joined path always ends with its last component. */
  lemma JoinEndsWith(a: string, b: string)
    ensures |b| <= |Join(a, b)| && Join(a, b)[|Join(a, b)| - |b|..] == b
  {
  }

  /** posixpath.basename(p): the part of p after its last '/'. The result is the longest suffix of
      p that holds no '/'. */
  function Basename(p: string): string
    decreases |p|
  {
    if p == "" || p[|p| - 1] == '/' then ""
    else Basename(p[..|p| - 1]) + [p[|p| - 1]]
  }

  /** The basename is a suffix of p without '/', preceded in p by a '/' unless it is all of p. */
  lemma {:induction false} BasenameSpec(p: string)
    ensures var r := Basename(p);
            && '/' !in r
            && |r| <= |p| && r == p[|p| - |r|..]
            && (|r| < |p| ==> p[|p| - |r| - 1] == '/')
    decreases |p|
  {
    if p != "" && p[|p| - 1] != '/' {
      var q := p[..|p| - 1];
      BasenameSpec(q);
      var r := Basename(p);
      assert r == Basename(q) + [p[|p| - 1]];
      assert p == q + [p[|p| - 1]];
    }
  }

  /** s.split('.')[0]: the longest prefix of s that holds no '.'. */
  function Stem(s: string): string
  {
    if s == "" || s[0] == '.' then ""
    else [s[0]] + Stem(s[1..])
  }

  /** The stem is a prefix of s without '.', followed in s by a '.' unless it is all of s. */
  lemma {:induction false} StemSpec(s: string)
    ensures var r := Stem(s);
            && '.' !in r
            && |r| <= |s| && r == s[..|r|]
            && (|r| < |s| ==> s[|r|] == '.')
  {
    if s != "" && s[0] != '.' {
      StemSpec(s[1..]);
      assert Stem(s) == [s[0]] + Stem(s[1..]);
    }
  }

  /** The body file's name for the input file at path p: its basename up to the first '.', then ".txt". */
  function TextName(p: string): string
  {
    Stem(Basename(p)) + ".txt"
  }

  /** The metadata sidecar's name for the input file at path p. */
  function SidecarName(p: string): string
  {
    TextName(p) + ".metadata.json"
  }

  /** A name with no '/' is its own basename once joined to any directory. */
  lemma BasenameOfJoin(dir: string, name: string)
    requires '/' !in name
    ensures Basename(Join(dir, name)) == name
  {
    var p := Join(dir, name);
    var r := Basename(p);
    BasenameSpec(p);
    JoinEndsWith(dir, name);
    assert p == dir + name || p == dir + "/" + name;
    assert |p| == |name| || p[|p| - |name| - 1] == '/';
  }

  /** A name with no '.' before its first dot is the stem; so is a name without any dot. */
  lemma StemOfDotted(x: string, rest: string)
    requires '.' !in x
    ensures Stem(x + rest) == x <==> rest == "" || rest[0] == '.'
  {
    var s := x + rest;
    var r := Stem(s);
    StemSpec(s);
    if |rest| > 0 { assert s[|x|] == rest[0]; }
  }

  /** For a file found by listing a directory, the body file's name depends on its name alone. */
  lemma TextNameOfListed(dir: string, name: string)
    requires '/' !in name
    ensures TextName(Join(dir, name)) == Stem(name) + ".txt"
  {
    BasenameOfJoin(dir, name);
  }

  /** Input names that differ only from their first '.' on are mapped to the same two output
      files: "a.json" and "a.b.json" both become "a.txt" and "a.txt.metadata.json". */
  lemma SameStemCollides(dir: string, stem: string, ext1: string, ext2: string)
    requires '.' !in stem && '/' !in stem + ext1 && '/' !in stem + ext2
    requires ext1 == "" || ext1[0] == '.'
    requires ext2 == "" || ext2[0] == '.'
    ensures TextName(Join(dir, stem + ext1)) == TextName(Join(dir, stem + ext2)) == stem + ".txt"
    ensures SidecarName(Join(dir, stem + ext1)) == SidecarName(Join(dir, stem + ext2))
  {
    StemOfDotted(stem, ext1);
    StemOfDotted(stem, ext2);
    TextNameOfListed(dir, stem + ext1);
    TextNameOfListed(dir, stem + ext2);
  }

  /** A common suffix cancels. */
  lemma SuffixCancels(a: string, b: string, suffix: string)
    ensures a + suffix == b + suffix ==> a == b
  {
    if a + suffix == b + suffix {
      assert a == (a + suffix)[..|a|];
      assert b == (b + suffix)[..|b|];
    }
  }

  /** Two inputs share their body file exactly when their basenames share a stem. */
  lemma TextNameInjective(p: string, q: string)
    ensures TextName(p) == TextName(q) <==> Stem(Basename(p)) == Stem(Basename(q))
  {
    var a, b := Stem(Basename(p)), Stem(Basename(q));
    if a + ".txt" == b + ".txt" {
      assert a == (a + ".txt")[..|a|];
    }
  }

  /** Sidecars share a name exactly when the body files do. */
  lemma SidecarNameInjective(p: string, q: string)
    ensures SidecarName(p) == SidecarName(q) <==> TextName(p) == TextName(q)
  {
    var a, b := TextName(p), TextName(q);
    if a + ".metadata.json" == b + ".metadata.json" {
      assert a == (a + ".metadata.json")[..|a|];
    }
  }

  /** No body file's name is ever some input's sidecar name, so the two kinds of output never
      overwrite each other. */
  lemma TextNameIsNoSidecar(p: string, q: string)
    ensures TextName(p) != SidecarName(q)
  {
    var a, b := Stem(Basename(p)), Stem(Basename(q));
    StemSpec(Basename(p));
    var s, t := a + ".txt", b + ".txt" + ".metadata.json";
    if |s| == |t| {
      assert s[|b|] == a[|b|] != '.';
      assert t[|b|] == '.';
    }
    assert TextName(p) == s && SidecarName(q) == t;
  }

  /** The stem holds only characters of s. */
  lemma {:induction false} StemKeepsOut(s: string, c: char)
    requires c !in s
    ensures c !in Stem(s)
  {
    if s != "" && s[0] != '.' {
      StemKeepsOut(s[1..], c);
    }
  }

  /** Output names never contain '/', so both files land directly in the output directory. */
  lemma OutputNamesAreFlat(p: string)
    ensures '/' !in TextName(p) && '/' !in SidecarName(p)
  {
    BasenameSpec(p);
    StemKeepsOut(Basename(p), '/');
  }
}
