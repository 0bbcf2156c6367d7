/** The pathlib operations the scripts use, for POSIX paths with '/' as separator.
    A path is either a string (as stored in the JSON files) or, where the scripts
    build paths with `/`, a sequence of components. */
module Paths {

  /** `str.rfind(c)`: the last position of `c`, or -1. */
  function RFind(s: string, c: char): (i: int)
    ensures -1 <= i < |s|
    ensures i >= 0 ==> s[i] == c
    ensures forall j :: i < j < |s| ==> s[j] != c
  {
    if s == [] then -1
    else if s[|s| - 1] == c then |s| - 1
    else RFind(s[..|s| - 1], c)
  }

  /** `PurePath(p).name`: the text after the last separator. */
  function Name(p: string): (n: string)
    ensures '/' !in n
    ensures EndsWithName(p, n)
  {
    p[RFind(p, '/') + 1..]
  }

  predicate EndsWithName(p: string, n: string)
  {
    |n| <= |p| && p[|p| - |n|..] == n && (|n| < |p| ==> p[|p| - |n| - 1] == '/')
  }

  /** `PurePath(p).suffix` of a file name: from its last '.' on, provided that
      dot is neither the first nor the last character; otherwise empty. */
  function Suffix(name: string): (r: string)
    ensures r == [] || (|r| >= 2 && r[0] == '.' && '.' !in r[1..])
    ensures |r| <= |name| && name[|name| - |r|..] == r
    ensures r != [] ==> |r| < |name|
    ensures r == [] ==> name == [] || name[|name| - 1] == '.' || '.' !in name[1..]
  {
    var i := RFind(name, '.');
    if 0 < i < |name| - 1 then name[i..] else []
  }

  /** `PurePath(p).stem` of a file name: the name without its suffix. */
  function Stem(name: string): string
  {
    var i := RFind(name, '.');
    if 0 < i < |name| - 1 then name[..i] else name
  }

  /** Stem and suffix split a name: they put it back together exactly, and the
      stem is non-empty whenever the name is. */
  lemma StemSuffix(name: string)
    ensures Stem(name) + Suffix(name) == name
    ensures name != [] ==> Stem(name) != []
  {
  }

  /** `str(PurePath(*p))` for a relative path given by its components;
      the empty path is ".". */
  function Str(p: seq<string>): string
  {
    if p == [] then "." else Join(p)
  }

  function Join(p: seq<string>): string
    requires p != []
  {
    if |p| == 1 then p[0] else Join(p[..|p| - 1]) + "/" + p[|p| - 1]
  }

  /** `PurePath(*p).parent` as components; the parent of "." is "." again. */
  function Parent(p: seq<string>): seq<string>
  {
    if p == [] then [] else p[..|p| - 1]
  }

  /** Rendering a path and taking its name gives back its last component,
      as long as that component holds no separator. */
  lemma {:induction false} NameOfStr(p: seq<string>)
    requires p != [] && '/' !in p[|p| - 1]
    ensures Name(Str(p)) == p[|p| - 1]
  {
    var n := p[|p| - 1];
    var s := Str(p);
    if |p| > 1 {
      var pre := Join(p[..|p| - 1]);
      assert s == pre + "/" + n;
      assert s[|pre|] == '/';
      var i := RFind(s, '/');
      assert i == |pre|;
      assert s[i + 1..] == n;
    }
  }
}
