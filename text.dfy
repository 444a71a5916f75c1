/** The .NET string helpers the branding update relies on: Char.IsWhiteSpace,
    String.IsNullOrWhiteSpace, String.Trim, String.StartsWith and Path.GetFileName. */
module Text {
  import opened Wrappers

  /** Char.IsWhiteSpace: the Unicode space separators, the line and paragraph separators,
      the control characters U+0009 to U+000D, and U+0085. */
  predicate IsWhiteSpace(c: char) {
    || c == ' '
    || ('\t' <= c <= '\r')
    || c == '\U{0085}'
    || c == '\U{00A0}'
    || c == '\U{1680}'
    || ('\U{2000}' <= c <= '\U{200A}')
    || c == '\U{2028}'
    || c == '\U{2029}'
    || c == '\U{202F}'
    || c == '\U{205F}'
    || c == '\U{3000}'
  }

  predicate AllWhiteSpace(s: string) {
    forall i :: 0 <= i < |s| ==> IsWhiteSpace(s[i])
  }

  /** String.IsNullOrWhiteSpace: null, empty, or made only of white space. */
  predicate IsNullOrWhiteSpace(s: Option<string>) {
    s.None? || AllWhiteSpace(s.value)
  }

  /** The number of white-space characters at the start of the string. */
  function LeadingWhiteSpace(s: string): (k: nat)
    ensures k <= |s|
    ensures forall i :: 0 <= i < k ==> IsWhiteSpace(s[i])
    ensures k < |s| ==> !IsWhiteSpace(s[k])
  {
    if s == [] || !IsWhiteSpace(s[0]) then 0 else 1 + LeadingWhiteSpace(s[1..])
  }

  /** The length of the string without its trailing white space. */
  function TrailingWhiteSpaceStart(s: string): (j: nat)
    ensures j <= |s|
    ensures forall i :: j <= i < |s| ==> IsWhiteSpace(s[i])
    ensures j > 0 ==> !IsWhiteSpace(s[j - 1])
  {
    if s == [] || !IsWhiteSpace(s[|s| - 1]) then |s| else TrailingWhiteSpaceStart(s[..|s| - 1])
  }

  /** String.Trim: leading and trailing white space removed (start first, then end). */
  function Trim(s: string): (r: string)
    ensures r == [] <==> AllWhiteSpace(s)
    ensures r != [] ==> !IsWhiteSpace(r[0]) && !IsWhiteSpace(r[|r| - 1])
  {
    var t := s[LeadingWhiteSpace(s)..];
    t[..TrailingWhiteSpaceStart(t)]
  }

  /** Trim is determined by the split: whatever white-space-only prefix s[..k] and
      suffix s[j..] frame a core s[k..j] that neither starts nor ends with white space,
      Trim returns exactly that core. */
  lemma TrimUnique(s: string, k: nat, j: nat)
    requires k <= j <= |s|
    requires forall i :: 0 <= i < k ==> IsWhiteSpace(s[i])
    requires forall i :: j <= i < |s| ==> IsWhiteSpace(s[i])
    requires k < j ==> !IsWhiteSpace(s[k]) && !IsWhiteSpace(s[j - 1])
    ensures Trim(s) == s[k..j]
  {
    if k < j {
      var m := LeadingWhiteSpace(s);
      assert m == k;
      var t := s[k..];
      var n := TrailingWhiteSpaceStart(t);
      assert t[j - k - 1] == s[j - 1];
      assert n > 0 ==> t[n - 1] == s[k + n - 1];
      assert n == j - k;
    }
  }

  /** String.StartsWith, compared ordinally. */
  predicate StartsWith(s: string, prefix: string) {
    |prefix| <= |s| && s[..|prefix|] == prefix
  }

  /** The separators Path.GetFileName splits on: the directory separator, the alternate
      directory separator and the volume separator. */
  predicate IsSeparator(c: char) {
    c == '\\' || c == '/' || c == ':'
  }

  predicate NoSeparator(s: string) {
    forall i :: 0 <= i < |s| ==> !IsSeparator(s[i])
  }

  /** The position just after the path's last separator, or 0 when it has none. */
  function LastSeparatorEnd(path: string): (k: nat)
    ensures k <= |path|
    ensures k > 0 ==> IsSeparator(path[k - 1])
    ensures forall i :: k <= i < |path| ==> !IsSeparator(path[i])
  {
    if path == [] then 0
    else if IsSeparator(path[|path| - 1]) then |path|
    else LastSeparatorEnd(path[..|path| - 1])
  }

  /** Path.GetFileName: the part of the path after its last separator, or the whole
      path when it has none. */
  function GetFileName(path: string): (name: string)
    ensures |name| <= |path|
    ensures forall i :: 0 <= i < |name| ==> name[i] == path[|path| - |name| + i]
    ensures NoSeparator(name)
    ensures |name| < |path| ==> IsSeparator(path[|path| - |name| - 1])
  {
    path[LastSeparatorEnd(path)..]
  }

  /** A directory part, however long, is stripped: the file name after a separator
      is returned whole. */
  lemma GetFileNameAfterSeparator(dir: string, sep: char, name: string)
    requires IsSeparator(sep) && NoSeparator(name)
    ensures GetFileName(dir + [sep] + name) == name
  {
    var path := dir + [sep] + name;
    var k := LastSeparatorEnd(path);
    assert path[|dir|] == sep;
    assert forall i :: |dir| < i < |path| ==> path[i] == name[i - |dir| - 1];
    assert k == |dir| + 1;
    assert path[k..] == name;
  }

  /** A bare file name, with no separator in it, is its own file name. */
  lemma GetFileNameOfBareName(name: string)
    requires NoSeparator(name)
    ensures GetFileName(name) == name
  {
    assert LastSeparatorEnd(name) == 0;
  }
}
