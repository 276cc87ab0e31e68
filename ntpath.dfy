/**
 * `os.path.splitext` under the Windows path rules (`ntpath`), as the watcher
 * applies it to the path of a created file. Both `\` and `/` separate path
 * components; the extension is the part from the last `.` of the last
 * component, provided that component has some character other than `.`
 * before it (so leading dots of a name do not start an extension).
 */
module NtPath {

  predicate IsSep(c: char) {
    c == '\\' || c == '/'
  }

  /** `str.rfind` for one character: the last index holding `c`, or -1. */
  function LastIndexOf(s: string, c: char): (r: int)
    ensures -1 <= r < |s|
    ensures r == -1 <==> c !in s
    ensures r >= 0 ==> s[r] == c
    ensures forall k :: r < k < |s| ==> s[k] != c
  {
    if |s| == 0 then -1
    else if s[|s| - 1] == c then |s| - 1
    else LastIndexOf(s[..|s| - 1], c)
  }

  /** Index of the last separator of either kind, or -1. */
  function LastSep(p: string): (r: int)
    ensures -1 <= r < |p|
    ensures r >= 0 ==> IsSep(p[r])
    ensures forall k :: r < k < |p| ==> !IsSep(p[k])
  {
    var back := LastIndexOf(p, '\\');
    var fwd := LastIndexOf(p, '/');
    if back < fwd then fwd else back
  }

  /** A shape every non-empty extension has: a dot, then no dot and no separator. */
  predicate IsExtension(e: string) {
    |e| >= 1 && e[0] == '.' && forall k :: 1 <= k < |e| ==> e[k] != '.' && !IsSep(e[k])
  }

  predicate EndsWith(p: string, e: string) {
    |e| <= |p| && p[|p| - |e|..] == e
  }

  /** The last path component of `p[..n]` holds a character other than a dot. */
  predicate HasStem(p: string, n: int)
    requires 0 <= n <= |p|
  {
    exists i :: 0 <= i < n && p[i] != '.' && forall k :: i <= k < n ==> !IsSep(p[k])
  }

  /** `ntpath.splitext`: the root and the extension of a path. */
  function SplitExt(p: string): (parts: (string, string))
    ensures parts.0 + parts.1 == p
    ensures parts.1 == [] || IsExtension(parts.1)
  {
    var sepIndex := LastSep(p);
    var dotIndex := LastIndexOf(p, '.');
    if dotIndex > sepIndex && exists i :: sepIndex < i < dotIndex && p[i] != '.' then
      (p[..dotIndex], p[dotIndex..])
    else
      (p, "")
  }

  /**
   * What `SplitExt` reports, without the searches: `e` is the extension of
   * `p` exactly when `p` ends with `e` and the last component before `e`
   * holds something other than dots.
   */
  lemma SplitExtIs(p: string, e: string)
    requires IsExtension(e)
    ensures SplitExt(p).1 == e <==> EndsWith(p, e) && HasStem(p, |p| - |e|)
  {
    var sepIndex := LastSep(p);
    var dotIndex := LastIndexOf(p, '.');
    if SplitExt(p).1 == e {
      assert dotIndex > sepIndex;
      var i :| sepIndex < i < dotIndex && p[i] != '.';
      assert p[dotIndex..] == e;
      assert |p| - |e| == dotIndex;
      assert forall k :: i <= k < dotIndex ==> !IsSep(p[k]);
    }
    if EndsWith(p, e) && HasStem(p, |p| - |e|) {
      var n := |p| - |e|;
      var i :| 0 <= i < n && p[i] != '.' && forall k :: i <= k < n ==> !IsSep(p[k]);
      assert forall k :: n <= k < |p| ==> p[k] == e[k - n];
      assert p[n] == '.';
      assert dotIndex == n;
      assert forall k :: i <= k < |p| ==> !IsSep(p[k]);
      assert sepIndex < i;
      assert SplitExt(p) == (p[..n], p[n..]);
    }
  }
}
