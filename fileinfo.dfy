/**
 * The Qt path helpers the file specifications and the remote queues use:
 * QFileInfo's fileName, suffix, baseName and absoluteFilePath, QDir's
 * cleanPath, and QString::simplified. Paths use '/' as their only
 * separator.
 */
module FileInfo {
  import opened TextOps
  import ListOps

  predicate IsSlash(c: char) {
    c == '/'
  }

  /** The index of the last `c` in s, or -1. */
  function LastIndexOf(s: string, c: char): (i: int)
    ensures -1 <= i < |s|
    ensures i == -1 <==> c !in s
    ensures 0 <= i ==> s[i] == c
    ensures forall j :: i < j < |s| ==> s[j] != c
  {
    if s == [] then -1
    else if s[|s| - 1] == c then |s| - 1
    else LastIndexOf(s[..|s| - 1], c)
  }

  /** Text without `c` after a prefix does not move the last `c`. */
  lemma {:induction false} LastIndexOfAppend(dir: string, name: string, c: char)
    requires c !in name
    ensures LastIndexOf(dir + name, c) == LastIndexOf(dir, c)
    decreases |name|
  {
    if name == [] {
      assert dir + name == dir;
    } else {
      assert (dir + name)[..|dir + name| - 1] == dir + name[..|name| - 1];
      LastIndexOfAppend(dir, name[..|name| - 1], c);
    }
  }

  /** QFileInfo::fileName: what follows the last '/'. */
  function FileName(path: string): (name: string)
    ensures '/' !in name && |name| <= |path|
  {
    path[LastIndexOf(path, '/') + 1..]
  }

  /** The file name ends the path, and is the whole path or follows a '/'. */
  lemma FileNameIsSuffix(path: string)
    ensures var name := FileName(path); path[|path| - |name|..] == name
    ensures var name := FileName(path); |name| < |path| ==> path[|path| - |name| - 1] == '/'
  {
  }

  /** A name after nothing or after a '/' is the file name. */
  lemma FileNameOf(dir: string, name: string)
    requires '/' !in name && (dir == [] || dir[|dir| - 1] == '/')
    ensures FileName(dir + name) == name
  {
    LastIndexOfAppend(dir, name, '/');
    assert (dir + name)[|dir|..] == name;
  }

  /** QFileInfo::suffix: what follows the last '.' of the file name, or nothing. */
  function Suffix(name: string): (r: string)
    ensures '.' !in r
    ensures '.' !in name ==> r == []
    ensures '.' in name ==> |r| < |name| && name[|name| - |r| - 1] == '.' && name[|name| - |r|..] == r
  {
    var i := LastIndexOf(name, '.');
    if i < 0 then [] else name[i + 1..]
  }

  /** QFileInfo::baseName: the file name up to its first '.'. */
  function BaseName(name: string): (r: string)
    ensures '.' !in r
    ensures '.' !in name ==> r == name
    ensures '.' in name ==> |r| < |name| && name[|r|] == '.' && name[..|r|] == r
  {
    var i := ListOps.IndexOf(name, '.');
    if i < 0 then name else name[..i]
  }

  /** "file.ext" has base name "file" and extension "ext"; "file" has no extension. */
  lemma NameParts(base: string, ext: string)
    requires '.' !in base && '.' !in ext
    ensures BaseName(base + "." + ext) == base && Suffix(base + "." + ext) == ext
    ensures BaseName(base) == base && Suffix(base) == []
  {
    var name := base + "." + ext;
    LastIndexOfAppend(base + ".", ext, '.');
    assert name[..|base| + 1] == base + "." && name[|base| + 1..] == ext;
    var j := ListOps.IndexOf(name, '.');
    assert forall k :: 0 <= k < |base| ==> name[k] == base[k];
    assert name[..j] == base;
  }

  /**
   * QFileInfo::absoluteFilePath: a relative path is taken from the current
   * directory `cwd`.
   */
  function AbsoluteFilePath(path: string, cwd: string): (r: string)
    ensures |path| > 0 && path[0] == '/' ==> r == path
    ensures !(|path| > 0 && path[0] == '/') ==> r == cwd + "/" + path
  {
    if |path| > 0 && path[0] == '/' then path else cwd + "/" + path
  }

  /**
   * QDir(path).absolutePath(): an empty path stands for ".", a relative one
   * is taken from the current directory `cwd`, and the result is cleaned.
   */
  function DirAbsolutePath(path: string, cwd: string): (r: string)
    ensures (|cwd| > 0 && cwd[0] == '/') || (|path| > 0 && path[0] == '/') ==> |r| > 0 && r[0] == '/'
  {
    var p := if path == [] then "." else path;
    CleanPath(AbsoluteFilePath(p, cwd))
  }

  /** With `c` in the text, a prefix moves the last `c` by its length. */
  lemma {:induction false} LastIndexOfShift(pre: string, s: string, c: char)
    requires c in s
    ensures LastIndexOf(pre + s, c) == |pre| + LastIndexOf(s, c)
    decreases |s|
  {
    if s[|s| - 1] != c {
      assert (pre + s)[..|pre + s| - 1] == pre + s[..|s| - 1];
      assert c in s[..|s| - 1] by {
        var i :| 0 <= i < |s| && s[i] == c;
        assert s[..|s| - 1][i] == c;
      }
      LastIndexOfShift(pre, s[..|s| - 1], c);
    }
  }

  /** Making a path absolute keeps its file name. */
  lemma AbsoluteKeepsFileName(path: string, cwd: string)
    ensures FileName(AbsoluteFilePath(path, cwd)) == FileName(path)
  {
    if !(|path| > 0 && path[0] == '/') {
      var pre := cwd + "/";
      assert AbsoluteFilePath(path, cwd) == pre + path;
      var k := LastIndexOf(path, '/') + 1;
      if '/' in path {
        LastIndexOfShift(pre, path, '/');
      } else {
        LastIndexOfAppend(pre, path, '/');
        assert LastIndexOf(pre, '/') == |cwd|;
      }
      assert LastIndexOf(pre + path, '/') + 1 == |pre| + k;
      assert (pre + path)[|pre| + k..] == path[k..];
    }
  }

  // ---- QDir::cleanPath ----

  /**
   * The segments of a path once "." is dropped and ".." takes away the
   * segment before it. A ".." with nothing before it is dropped in an
   * absolute path and kept in a relative one.
   */
  function Resolve(segments: seq<string>, absolute: bool): (r: seq<string>)
    ensures forall i :: 0 <= i < |r| ==> r[i] != "." && (absolute ==> r[i] != "..")
    ensures (forall i :: 0 <= i < |segments| ==> |segments[i]| > 0 && NoneOf(segments[i], IsSlash))
            ==> forall i :: 0 <= i < |r| ==> |r[i]| > 0 && NoneOf(r[i], IsSlash)
  {
    if segments == [] then []
    else
      var init := segments[..|segments| - 1];
      var x := segments[|segments| - 1];
      assert forall i :: 0 <= i < |init| ==> init[i] == segments[i];
      var st := Resolve(init, absolute);
      if x == "." then st
      else if x == ".." then
        if |st| > 0 && st[|st| - 1] != ".." then st[..|st| - 1]
        else if absolute then st
        else st + [".."]
      else st + [x]
  }

  /**
   * QDir::cleanPath: repeated separators collapse, "." and ".." are
   * resolved, and no separator trails; an absolute path keeps its leading
   * '/', and a relative path that resolves to nothing is ".".
   */
  function CleanPath(path: string): string {
    if path == [] then []
    else
      var absolute := path[0] == '/';
      var joined := JoinWith(Resolve(Split(path, IsSlash), absolute), '/');
      if absolute then "/" + joined
      else if joined == [] then "."
      else joined
  }

  /** A separator and a non-empty part at the end of a path add that part to its split. */
  lemma {:induction false} SplitFromAppend(x: string, c: char, d: string, sep: char -> bool, cur: string)
    requires sep(c) && |d| > 0 && NoneOf(d, sep) && NoneOf(cur, sep)
    ensures SplitFrom(x + ([c] + d), sep, cur) == SplitFrom(x, sep, cur) + [d]
    decreases |x|
  {
    if x == [] {
      assert [] + ([c] + d) == [c] + d && ([c] + d)[1..] == d;
      SplitFromWord(d, [], sep, []);
      assert d + [] == d && [] + d == d;
    } else {
      assert (x + ([c] + d))[0] == x[0] && (x + ([c] + d))[1..] == x[1..] + ([c] + d);
      if sep(x[0]) {
        SplitFromAppend(x[1..], c, d, sep, []);
      } else {
        SplitFromAppend(x[1..], c, d, sep, cur + [x[0]]);
      }
    }
  }

  /**
   * Cleaning a directory path followed by "/" and a plain name (neither "."
   * nor "..") gives a path whose file name is that name: the name stays the
   * last segment, whatever the directory was.
   */
  lemma CleanPathKeepsLast(dir: string, name: string)
    requires |name| > 0 && '/' !in name && name != "." && name != ".."
    ensures var r := CleanPath(dir + ("/" + name));
      FileName(r) == name && |r| > 0 && r[|r| - 1] == name[|name| - 1]
  {
    var pre := CleanPathShape(dir, name);
    FileNameOf(pre, name);
    assert (pre + name)[|pre + name| - 1] == name[|name| - 1];
  }

  /** The cleaned path is the cleaned directory, a '/' unless that is empty, and the name. */
  lemma CleanPathShape(dir: string, name: string) returns (pre: string)
    requires |name| > 0 && '/' !in name && name != "." && name != ".."
    ensures CleanPath(dir + ("/" + name)) == pre + name && (pre == [] || pre[|pre| - 1] == '/')
  {
    var path := dir + ("/" + name);
    var absolute := path[0] == '/';
    var st := Resolve(Split(dir, IsSlash), absolute);
    var mid := if st == [] then [] else JoinWith(st, '/') + "/";
    assert JoinWith(Resolve(Split(path, IsSlash), absolute), '/') == mid + name by {
      SplitAppendSlash(dir, name);
      ResolveSnoc(Split(dir, IsSlash), name, absolute);
      JoinedEnds(st, name);
    }
    pre := (if absolute then "/" else []) + mid;
    assert CleanPath(path) == pre + name by {
      CleanPathOf(path, mid + name);
    }
  }

  lemma SplitAppendSlash(dir: string, name: string)
    requires |name| > 0 && '/' !in name
    ensures Split(dir + ("/" + name), IsSlash) == Split(dir, IsSlash) + [name]
  {
    assert NoneOf(name, IsSlash);
    SplitFromAppend(dir, '/', name, IsSlash, []);
  }

  lemma ResolveSnoc(segments: seq<string>, name: string, absolute: bool)
    requires name != "." && name != ".."
    ensures Resolve(segments + [name], absolute) == Resolve(segments, absolute) + [name]
  {
    assert (segments + [name])[..|segments|] == segments;
  }

  lemma JoinedEnds(st: seq<string>, name: string)
    ensures JoinWith(st + [name], '/') == (if st == [] then [] else JoinWith(st, '/') + "/") + name
  {
    if st != [] {
      JoinWithSnoc(st, name, '/');
    } else {
      assert [] + [name] == [name];
    }
  }

  lemma CleanPathOf(path: string, joined: string)
    requires path != [] && joined != []
    requires joined == JoinWith(Resolve(Split(path, IsSlash), path[0] == '/'), '/')
    ensures CleanPath(path) == (if path[0] == '/' then "/" else []) + joined
  {
  }

  // ---- QString::simplified ----

  /** QString::simplified: white space trimmed at both ends and runs of it inside made one space. */
  function Simplified(s: string): string {
    JoinWith(Split(s, IsSpace), ' ')
  }

  /** Simplifying text that ends in a character other than white space keeps that last character. */
  lemma SimplifiedKeepsLast(s: string)
    requires |s| > 0 && !IsSpace(s[|s| - 1])
    ensures var t := Simplified(s); |t| > 0 && t[|t| - 1] == s[|s| - 1]
  {
    var parts := Split(s, IsSpace);
    SplitKeepsText(s, IsSpace);
    KeptLast(s, IsSpace);
    ConcatLast(parts);
    JoinLast(parts, ' ');
  }

  lemma {:induction false} KeptLast(s: string, sep: char -> bool)
    requires |s| > 0 && !sep(s[|s| - 1])
    ensures var k := Kept(s, sep); |k| > 0 && k[|k| - 1] == s[|s| - 1]
    decreases |s|
  {
    if |s| > 1 {
      KeptLast(s[1..], sep);
    }
  }

  /** Laid end to end, non-empty parts end with the last part's last character. */
  lemma {:induction false} ConcatLast(parts: seq<string>)
    requires forall i :: 0 <= i < |parts| ==> |parts[i]| > 0
    ensures |Concat(parts)| > 0 <==> |parts| > 0
    ensures |parts| > 0 ==> var c := Concat(parts); var l := parts[|parts| - 1]; c[|c| - 1] == l[|l| - 1]
    decreases |parts|
  {
    if |parts| > 0 {
      ConcatLast(parts[1..]);
    }
  }

  /** Joined, non-empty parts end with the last part's last character. */
  lemma {:induction false} JoinLast(parts: seq<string>, c: char)
    requires |parts| > 0 && forall i :: 0 <= i < |parts| ==> |parts[i]| > 0
    ensures var j := JoinWith(parts, c); var l := parts[|parts| - 1]; |j| > 0 && j[|j| - 1] == l[|l| - 1]
    decreases |parts|
  {
    if |parts| > 1 {
      JoinLast(parts[1..], c);
    }
  }
}
