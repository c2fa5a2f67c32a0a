/**
 * The two path helpers the window uses: `Path.Combine` for the tool, ffmpeg
 * and download locations and the output template, and
 * `Path.GetDirectoryName` for the directory handed to `--ffmpeg-location`.
 * Both follow the Windows rules of the .NET Framework: `\` and `/` are
 * separators, `:` is the volume separator, and a path's root is a drive
 * prefix (`C:` or `C:\`), a leading separator, or a UNC `\\server\share`.
 */
module Paths {
  import opened Wrappers

  /** `Path.DirectorySeparatorChar` on Windows. */
  const DirectorySeparator: char := '\\'

  /** `Path.VolumeSeparatorChar` on Windows. */
  const VolumeSeparator: char := ':'

  /** The primary and the alternate directory separator. */
  predicate IsSeparator(c: char)
  {
    c == '\\' || c == '/'
  }

  predicate HasNoSeparator(s: string)
  {
    forall m :: 0 <= m < |s| ==> !IsSeparator(s[m])
  }

  /** `Path.IsPathRooted`: a leading separator or a drive prefix. */
  predicate IsRooted(s: string)
  {
    (|s| >= 1 && IsSeparator(s[0])) || (|s| >= 2 && s[1] == VolumeSeparator)
  }

  /**
   * What `Path.Combine` puts in front of a relative name: `dir`, followed by
   * a separator unless it is empty or already ends with a separator or a
   * volume separator.
   */
  function DirectoryPrefix(dir: string): (prefix: string)
    ensures prefix == dir || prefix == dir + [DirectorySeparator]
    ensures prefix == dir + [DirectorySeparator] <==>
      dir != "" && !IsSeparator(dir[|dir| - 1]) && dir[|dir| - 1] != VolumeSeparator
  {
    if dir == "" || IsSeparator(dir[|dir| - 1]) || dir[|dir| - 1] == VolumeSeparator then dir
    else dir + [DirectorySeparator]
  }

  /**
   * `Path.Combine(dir, name)`: an empty part yields the other, a rooted
   * `name` replaces `dir`, and otherwise `name` follows `dir`'s prefix.
   */
  function Combine(dir: string, name: string): (path: string)
    ensures path == name || path == dir + name || path == dir + [DirectorySeparator] + name
    ensures name == "" ==> path == dir
    ensures IsRooted(name) ==> path == name
    ensures dir != "" && name != "" && !IsRooted(name) ==> |path| > |dir| && path[..|dir|] == dir
    ensures path == dir + [DirectorySeparator] + name <==>
      && dir != "" && name != "" && !IsRooted(name)
      && !IsSeparator(dir[|dir| - 1]) && dir[|dir| - 1] != VolumeSeparator
  {
    if name == "" then dir
    else if dir == "" || IsRooted(name) then name
    else DirectoryPrefix(dir) + name
  }

  /** Every relative name is combined with the same directory prefix. */
  lemma CombineRelative(dir: string, name: string)
    requires name != "" && !IsRooted(name)
    ensures Combine(dir, name) == DirectoryPrefix(dir) + name
  {
  }

  /** The first separator at or after `from`, or the end of `s`. */
  function NextSeparator(s: string, from: nat): (r: nat)
    requires from <= |s|
    ensures from <= r <= |s|
    ensures r < |s| ==> IsSeparator(s[r])
    ensures forall m :: from <= m < r ==> !IsSeparator(s[m])
    decreases |s| - from
  {
    if from == |s| || IsSeparator(s[from]) then from else NextSeparator(s, from + 1)
  }

  /**
   * The length of the path's root: `\\server\share` up to (not including)
   * the separator after the share, one leading separator, `C:\` or `C:`, or
   * nothing for a relative path.
   */
  function RootLength(s: string): (r: nat)
    ensures r <= |s|
  {
    if |s| >= 1 && IsSeparator(s[0]) then
      if |s| >= 2 && IsSeparator(s[1]) then
        var server := NextSeparator(s, 2);
        if server == |s| then |s| else NextSeparator(s, server + 1)
      else 1
    else if |s| >= 2 && s[1] == VolumeSeparator then
      if |s| >= 3 && IsSeparator(s[2]) then 3 else 2
    else 0
  }

  /**
   * The scan of `GetDirectoryName` back from `hi`: the last separator at or
   * after `root`, or `root` itself when there is none.
   */
  function LastSeparatorFrom(s: string, root: nat, hi: nat): (r: nat)
    requires root <= hi <= |s|
    ensures root <= r <= hi
    ensures r == hi ==> hi == root
    ensures r > root ==> IsSeparator(s[r])
    ensures forall m :: r < m < hi ==> !IsSeparator(s[m])
    decreases hi
  {
    if hi == root then root
    else if IsSeparator(s[hi - 1]) then hi - 1
    else LastSeparatorFrom(s, root, hi - 1)
  }

  /**
   * `Path.GetDirectoryName(path)`: None (`null`) when the path is no longer
   * than its root; otherwise everything before the last separator, but
   * never less than the root.
   */
  function DirectoryName(path: string): (dir: Option<string>)
    ensures dir.None? <==> |path| <= RootLength(path)
    ensures dir.Some? ==> RootLength(path) <= |dir.value| < |path| && dir.value == path[..|dir.value|]
    ensures dir.Some? && |dir.value| > RootLength(path) ==> IsSeparator(path[|dir.value|])
    ensures dir.Some? ==> forall m :: |dir.value| < m < |path| ==> !IsSeparator(path[m])
  {
    var root := RootLength(path);
    if |path| <= root then None
    else Some(path[..LastSeparatorFrom(path, root, |path|)])
  }

  /** A separator found inside `s` is found at the same place in any extension of `s`. */
  lemma {:induction false} NextSeparatorOfExtension(s: string, t: string, from: nat)
    requires from <= |s| <= |t| && t[..|s|] == s
    requires NextSeparator(s, from) < |s|
    ensures NextSeparator(t, from) == NextSeparator(s, from)
    decreases |s| - from
  {
    assert t[from] == s[from];
    if !IsSeparator(s[from]) {
      NextSeparatorOfExtension(s, t, from + 1);
    }
  }

  /** Extending a path whose root ends inside it leaves the root unchanged. */
  lemma RootLengthOfExtension(s: string, t: string)
    requires |s| <= |t| && t[..|s|] == s
    requires RootLength(s) < |s|
    requires |s| == 1 ==> |t| < 2 || t[1] != VolumeSeparator
    ensures RootLength(t) == RootLength(s)
  {
    assert forall m :: 0 <= m < |s| ==> t[m] == s[m];
    if |s| >= 2 && IsSeparator(s[0]) && IsSeparator(s[1]) {
      var server := NextSeparator(s, 2);
      NextSeparatorOfExtension(s, t, 2);
      NextSeparatorOfExtension(s, t, server + 1);
    }
  }

  /** The scan stops at a separator that no later separator follows. */
  lemma {:induction false} LastSeparatorFromIs(s: string, root: nat, hi: nat, c: nat)
    requires root <= c < hi <= |s| && IsSeparator(s[c])
    requires forall m :: c < m < hi ==> !IsSeparator(s[m])
    ensures LastSeparatorFrom(s, root, hi) == c
    decreases hi
  {
    if hi - 1 != c {
      LastSeparatorFromIs(s, root, hi - 1, c);
    }
  }

  /**
   * The directory of a file placed in `dir` by `Combine` is `dir` itself,
   * without the trailing separator it may have had, when `dir` is more than
   * a root and does not end with a volume separator.
   */
  lemma DirectoryNameOfCombine(dir: string, name: string)
    requires name != "" && HasNoSeparator(name) && !IsRooted(name)
    requires RootLength(dir) < |dir| && dir[|dir| - 1] != VolumeSeparator
    ensures DirectoryName(Combine(dir, name)) ==
      Some(if IsSeparator(dir[|dir| - 1]) then dir[..|dir| - 1] else dir)
  {
    var path := Combine(dir, name);
    var cut := if IsSeparator(dir[|dir| - 1]) then |dir| - 1 else |dir|;
    assert path[..|dir|] == dir;
    RootLengthOfExtension(dir, path);
    assert IsSeparator(path[cut]);
    forall m | cut < m < |path|
      ensures !IsSeparator(path[m])
    {
      assert path[m] == name[m - (|path| - |name|)];
    }
    LastSeparatorFromIs(path, RootLength(path), |path|, cut);
    assert path[..cut] == path[..|dir|][..cut];
  }

  /** A file directly under a drive root keeps the root with its separator as its directory. */
  lemma DirectoryNameAtDriveRoot(dir: string, name: string)
    requires |dir| == 3 && !IsSeparator(dir[0]) && dir[1] == VolumeSeparator && IsSeparator(dir[2])
    requires name != "" && HasNoSeparator(name) && !IsRooted(name)
    ensures DirectoryName(Combine(dir, name)) == Some(dir)
  {
    var path := Combine(dir, name);
    assert path == dir + name;
    assert RootLength(path) == 3;
    forall m | 3 <= m < |path|
      ensures !IsSeparator(path[m])
    {
      assert path[m] == name[m - 3];
    }
    assert path[..3] == dir;
  }

  /** The application in a drive's root directory: ffmpeg's directory is `C:\`. */
  lemma ExampleDriveRoot()
    ensures DirectoryName(Combine("C:\\", "ffmpeg.exe")) == Some("C:\\")
  {
    DirectoryNameAtDriveRoot("C:\\", "ffmpeg.exe");
  }

  /** The application in a sub-directory: ffmpeg's directory loses the trailing separator. */
  lemma ExampleToolDirectory()
    ensures DirectoryName(Combine("C:\\Tools\\", "ffmpeg.exe")) == Some("C:\\Tools")
  {
    var dir := "C:\\Tools\\";
    assert RootLength(dir) == 3;
    DirectoryNameOfCombine(dir, "ffmpeg.exe");
    assert dir[..|dir| - 1] == "C:\\Tools";
  }

  /** A drive without a separator: the file name is glued to the volume, and the drive is the directory. */
  lemma ExampleDriveRelative()
    ensures Combine("C:", "ffmpeg.exe") == "C:ffmpeg.exe"
    ensures DirectoryName(Combine("C:", "ffmpeg.exe")) == Some("C:")
  {
    var path := "C:ffmpeg.exe";
    assert RootLength(path) == 2;
    forall m | 2 <= m < |path|
      ensures !IsSeparator(path[m])
    {
    }
    assert path[..2] == "C:";
  }
}
