/** The parts of path handling the upload code relies on: the last path
    component of a file name, its extension (the `suffix` of a path) and
    ASCII lower-casing. */
module Paths {

  /** The position of the last `c` in `s`, or -1 when `s` has none. */
  function LastIndexOf(s: string, c: char): (r: int)
    ensures -1 <= r < |s|
    ensures r >= 0 ==> s[r] == c
    ensures forall k :: r < k < |s| ==> s[k] != c
    decreases |s|
  {
    if s == [] then -1
    else if s[|s| - 1] == c then |s| - 1
    else LastIndexOf(s[..|s| - 1], c)
  }

  /** The last component of a path: everything after its last '/'. */
  function BaseName(path: string): (name: string)
    ensures '/' !in name
    ensures |name| <= |path| && name == path[|path| - |name|..]
  {
    path[LastIndexOf(path, '/') + 1..]
  }

  /** The extension of a path: its last component from the final '.' on,
      provided that dot is neither the first nor the last character of the
      component; otherwise empty. */
  function Suffix(path: string): (ext: string)
    ensures ext == [] || (2 <= |ext| && ext[0] == '.' && '.' !in ext[1..])
    ensures '/' !in ext
    ensures |ext| <= |path| && ext == path[|path| - |ext|..]
    ensures '.' !in BaseName(path) ==> ext == []
  {
    var name := BaseName(path);
    var i := LastIndexOf(name, '.');
    if 0 < i < |name| - 1 then name[i..] else []
  }

  function LowerChar(c: char): char
  {
    if 'A' <= c <= 'Z' then (c as int + 32) as char else c
  }

  /** ASCII lower-casing, character by character. */
  function Lower(s: string): string
  {
    seq(|s|, k requires 0 <= k < |s| => LowerChar(s[k]))
  }

  /** Lower-casing then lower-casing again changes nothing. */
  lemma LowerIdempotent(s: string)
    ensures Lower(Lower(s)) == Lower(s)
  {
  }

  /** Lower-casing commutes with taking a tail. */
  lemma LowerDrop(s: string, j: nat)
    requires j <= |s|
    ensures Lower(s[j..]) == Lower(s)[j..]
  {
  }

  /** Lower-casing never turns any other character into '.' or '/'. */
  lemma LowerKeepsSeparators(s: string, t: string, c: char)
    requires c == '.' || c == '/'
    requires Lower(s) == Lower(t)
    ensures |s| == |t|
    ensures forall k :: 0 <= k < |s| ==> (s[k] == c <==> t[k] == c)
  {
    forall k | 0 <= k < |s|
      ensures s[k] == c <==> t[k] == c
    {
      assert Lower(s)[k] == Lower(t)[k];
    }
  }

  /** Two strings with `c` at the same positions have their last `c` at the
      same position. */
  lemma LastIndexOfSamePositions(s: string, t: string, c: char)
    requires |s| == |t|
    requires forall k :: 0 <= k < |s| ==> (s[k] == c <==> t[k] == c)
    ensures LastIndexOf(s, c) == LastIndexOf(t, c)
  {
  }

  /** Cutting two strings that agree up to case at their last separator
      `c` leaves tails that agree up to case. */
  lemma CutIgnoresCase(a: string, b: string, c: char)
    requires c == '.' || c == '/'
    requires Lower(a) == Lower(b)
    ensures LastIndexOf(a, c) == LastIndexOf(b, c)
    ensures Lower(a[LastIndexOf(a, c) + 1..]) == Lower(b[LastIndexOf(b, c) + 1..])
  {
    LowerKeepsSeparators(a, b, c);
    LastIndexOfSamePositions(a, b, c);
    var j := LastIndexOf(a, c) + 1;
    LowerDrop(a, j);
    LowerDrop(b, j);
  }

  /** Names that agree up to case have extensions that agree up to case. */
  lemma {:induction false} SuffixIgnoresCase(a: string, b: string)
    requires Lower(a) == Lower(b)
    ensures Lower(Suffix(a)) == Lower(Suffix(b))
  {
    CutIgnoresCase(a, b, '/');
    var na, nb := BaseName(a), BaseName(b);
    LowerKeepsSeparators(na, nb, '.');
    LastIndexOfSamePositions(na, nb, '.');
    var i := LastIndexOf(na, '.');
    if 0 < i < |na| - 1 {
      LowerDrop(na, i);
      LowerDrop(nb, i);
    }
  }

  /** The last `c` of a concatenation lies in its second part when that
      part has one, and otherwise where the first part has it. */
  lemma LastIndexOfAppend(s: string, t: string, c: char)
    ensures c !in t ==> LastIndexOf(s + t, c) == LastIndexOf(s, c)
    ensures c in t ==> LastIndexOf(s + t, c) == |s| + LastIndexOf(t, c)
  {
    var u := s + t;
    var r := LastIndexOf(u, c);
    if c !in t {
      forall k | |s| <= k < |u| ensures u[k] != c { assert u[k] == t[k - |s|]; }
      var q := LastIndexOf(s, c);
      if q >= 0 { assert u[q] == c; }
      if r >= 0 { assert u[r] == s[r]; }
    } else {
      var q := LastIndexOf(t, c);
      assert q >= 0;
      assert u[|s| + q] == c;
    }
  }

  /** Appending text without a '/' extends the last component; the last
      component of a path not ending in '/' is not empty. */
  lemma BaseNameAppend(s: string, t: string)
    requires '/' !in t
    ensures BaseName(s + t) == BaseName(s) + t
    ensures s != [] && s[|s| - 1] != '/' ==> BaseName(s) != []
  {
    LastIndexOfAppend(s, t, '/');
    var j := LastIndexOf(s, '/');
    assert (s + t)[j + 1..] == s[j + 1..] + t;
  }

  /** An extension's only '.' is its first character. */
  lemma LastDotOfExtension(ext: string)
    requires ext != [] && ext[0] == '.' && '.' !in ext[1..]
    ensures LastIndexOf(ext, '.') == 0
  {
    assert ext == [ext[0]] + ext[1..];
    LastIndexOfAppend([ext[0]], ext[1..], '.');
  }

  /** A component made of a non-empty stem and an extension ('.' followed by
      at least one character other than '.' and '/') has that extension. */
  lemma {:induction false} SuffixOfStemAndExtension(stem: string, ext: string)
    requires stem != [] && stem[|stem| - 1] != '/'
    requires 2 <= |ext| && ext[0] == '.' && '.' !in ext[1..] && '/' !in ext
    ensures Suffix(stem + ext) == ext
  {
    BaseNameAppend(stem, ext);
    var head := BaseName(stem);
    LastDotOfExtension(ext);
    LastIndexOfAppend(head, ext, '.');
    assert (head + ext)[|head|..] == ext;
  }
}
