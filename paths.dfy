/**
 * The two .NET path helpers the Kibana launcher relies on: `Path.Combine` (as the
 * .NET Framework implements it on Windows) and `string.TrimEnd('\\')`.
 */
module Paths {

  /** True when `s` ends with `suffix`. */
  predicate EndsWith(s: string, suffix: string) {
    |suffix| <= |s| && s[|s| - |suffix|..] == suffix
  }

  predicate EndsWithBackslash(s: string) {
    |s| > 0 && s[|s| - 1] == '\\'
  }

  /** A directory or volume separator: `Path.Combine` adds no backslash after one. */
  predicate IsSeparator(c: char) {
    c == '\\' || c == '/' || c == ':'
  }

  /** `Path.IsPathRooted`: a leading separator or a drive letter followed by a colon. */
  predicate IsPathRooted(p: string) {
    (|p| >= 1 && (p[0] == '\\' || p[0] == '/')) || (|p| >= 2 && p[1] == ':')
  }

  /** A leading slash or backslash, or a drive letter's colon, makes a path rooted; the relative parts the launcher combines are not. */
  lemma RootedPaths()
    ensures IsPathRooted("\\x") && IsPathRooted("/x") && IsPathRooted("C:x")
    ensures !IsPathRooted("config") && !IsPathRooted("kibana.yml") && !IsPathRooted("src\\cli") && !IsPathRooted("node\\node.exe")
  {
  }

  /**
   * `Path.Combine(path1, path2)`: an empty side yields the other, a rooted second
   * path wins outright, otherwise the two are joined with a backslash unless the
   * first already ends with a directory or volume separator.
   */
  function Combine(path1: string, path2: string): (r: string)
    ensures path2 == "" ==> r == path1
    ensures path2 != "" && path1 == "" ==> r == path2
    ensures path2 != "" && IsPathRooted(path2) ==> r == path2
    ensures path1 != "" && path2 != "" && !IsPathRooted(path2) && IsSeparator(path1[|path1| - 1]) ==> r == path1 + path2
    ensures path1 != "" && path2 != "" && !IsPathRooted(path2) && !IsSeparator(path1[|path1| - 1]) ==> r == path1 + "\\" + path2
    ensures path2 != "" && !IsPathRooted(path2) ==> EndsWith(r, path2) && path1 <= r
  {
    if path2 == "" then path1
    else if path1 == "" then path2
    else if IsPathRooted(path2) then path2
    else if IsSeparator(path1[|path1| - 1]) then path1 + path2
    else path1 + "\\" + path2
  }

  /**
   * `r` is what `s.TrimEnd('\\')` must give: a prefix of `s` that does not end
   * with a backslash, followed in `s` by nothing but backslashes.
   */
  predicate TrimmedFrom(r: string, s: string) {
    && r <= s
    && (forall i | |r| <= i < |s| :: s[i] == '\\')
    && !EndsWithBackslash(r)
  }

  /** `s.TrimEnd('\\')`: removes every trailing backslash. */
  function TrimEndBackslashes(s: string): (r: string)
    ensures TrimmedFrom(r, s)
  {
    if EndsWithBackslash(s) then TrimEndBackslashes(s[..|s| - 1]) else s
  }

  /** The characterisation of trimming pins the result down: at most one string is trimmed from `s`. */
  lemma TrimmedFromUnique(r1: string, r2: string, s: string)
    requires TrimmedFrom(r1, s) && TrimmedFrom(r2, s)
    ensures r1 == r2
  {
  }
}
