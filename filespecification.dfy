/**
 * FileSpecification: a file a job needs, described by a JSON object either
 * as a path on disk ("path") or as a name with its text ("filename" and
 * "contents"). Every query looks only at which members the object holds, so
 * a specification is a value: copies and assignments hold the same object.
 *
 * The file system is a parameter: the directory paths are made absolute
 * against (`cwd`), whether a file opens, and the text it reads.
 */
module FileSpecification {
  import opened Wrappers
  import opened JsonValue
  import FileInfo

  datatype Format = InvalidFormat | PathFormat | ContentsFormat

  /** The JSON object a specification holds. */
  datatype Spec = Spec(json: map<string, Json>)

  /** QJsonValue::toString: the text of a string, a null string otherwise. */
  function Text(v: Json): string {
    if v.JString? then v.s else ""
  }

  /** The default constructor: an empty object. */
  const Empty: Spec := Spec(map[])

  /** The constructor from a path on disk. */
  function FromPath(path: string): Spec {
    Spec(map["path" := JString(path)])
  }

  /** The constructor from a file name and the file's text. */
  function FromContents(filename: string, contents: string): Spec {
    Spec(map["filename" := JString(filename), "contents" := JString(contents)])
  }

  /**
   * The constructor from an open file, in the format asked for. A Contents
   * specification whose file cannot be read keeps only its "filename".
   */
  function FromFile(fileName: string, cwd: string, format: Format, read: Option<string>): Spec {
    match format
    case PathFormat => Spec(map["path" := JString(FileInfo.AbsoluteFilePath(fileName, cwd))])
    case ContentsFormat =>
      var name := FileInfo.FileName(fileName);
      if read.None? then Spec(map["filename" := JString(name)]) else FromContents(name, read.value)
    case InvalidFormat => Empty
  }

  /** format(): a "path" member wins; otherwise both "filename" and "contents" are needed. */
  function FormatOf(s: Spec): Format {
    if "path" in s.json then PathFormat
    else if "filename" in s.json && "contents" in s.json then ContentsFormat
    else InvalidFormat
  }

  /** filename(): the last component of the stored path or name; empty when invalid. */
  function Filename(s: Spec): (name: string)
    ensures '/' !in name
  {
    match FormatOf(s)
    case InvalidFormat => ""
    case PathFormat => FileInfo.FileName(Text(s.json["path"]))
    case ContentsFormat => FileInfo.FileName(Text(s.json["filename"]))
  }

  /** filepath(): the absolute path of a Path specification, a null string (None) otherwise. */
  function Filepath(s: Spec, cwd: string): (path: Option<string>)
    ensures path.Some? <==> FormatOf(s) == PathFormat
  {
    if FormatOf(s) == PathFormat then Some(FileInfo.AbsoluteFilePath(Text(s.json["path"]), cwd)) else None
  }

  /**
   * contents(): the stored text, or for a Path specification the text read
   * from its file (`read`, None when the file does not open); empty when
   * invalid or unreadable.
   */
  function ContentsOf(s: Spec, read: Option<string>): string {
    match FormatOf(s)
    case InvalidFormat => ""
    case PathFormat => if read.Some? then read.value else ""
    case ContentsFormat => Text(s.json["contents"])
  }

  /** fileExists(): only a Path specification can name an existing file. */
  function FileExists(s: Spec, onDisk: string -> bool): (r: bool)
    ensures r ==> FormatOf(s) == PathFormat
  {
    FormatOf(s) == PathFormat && onDisk(Text(s.json["path"]))
  }

  /**
   * writeFile(dir, name): the path written and the text written into it, or
   * None when nothing is written. `name` is the optional file name (None is a
   * null string: the specification's own name is used); `opens` is whether
   * the target opens for writing.
   */
  function WriteFile(s: Spec, dir: string, name: Option<string>, opens: bool, read: Option<string>)
    : (written: Option<(string, string)>)
    ensures FormatOf(s) == InvalidFormat || !opens ==> written.None?
  {
    if FormatOf(s) == InvalidFormat || !opens then None
    else
      var target := if name.None? then Filename(s) else name.value;
      Some((FileInfo.AbsoluteFilePath(target, dir), ContentsOf(s, read)))
  }

  /** fileHasExtension(). */
  predicate FileHasExtension(s: Spec) {
    FileInfo.Suffix(Filename(s)) != []
  }

  /** fileBaseName(). */
  function FileBaseName(s: Spec): string {
    FileInfo.BaseName(Filename(s))
  }

  /** fileExtension(). */
  function FileExtension(s: Spec): string {
    FileInfo.Suffix(Filename(s))
  }

  // ---- Properties ----

  lemma DistinctKeys()
    ensures "filename" != "contents" && "path" != "filename" && "path" != "contents"
  {
    assert "filename"[0] != "contents"[0];
  }

  /** A file name with no '/' is its own last component. */
  lemma BareName(name: string)
    requires '/' !in name
    ensures FileInfo.FileName(name) == name
  {
    FileInfo.FileNameOf([], name);
    assert [] + name == name;
  }

  /** What any object with a "path" member answers. */
  lemma PathSpec(s: Spec, path: string, cwd: string)
    requires "path" in s.json && s.json["path"] == JString(path)
    ensures FormatOf(s) == PathFormat && Filename(s) == FileInfo.FileName(path)
    ensures Filepath(s, cwd) == Some(FileInfo.AbsoluteFilePath(path, cwd))
  {
  }

  /** What an object with "filename" and "contents" members and no "path" answers. */
  lemma ContentsSpec(s: Spec, filename: string, contents: string, read: Option<string>)
    requires "path" !in s.json && "filename" in s.json && "contents" in s.json
    requires s.json["filename"] == JString(filename) && s.json["contents"] == JString(contents)
    ensures FormatOf(s) == ContentsFormat && Filename(s) == FileInfo.FileName(filename)
    ensures ContentsOf(s, read) == contents
  {
  }

  /** A path specification gives back its path's file name and, made absolute, its path. */
  lemma PathRoundTrip(path: string, cwd: string)
    ensures FormatOf(FromPath(path)) == PathFormat
    ensures Filename(FromPath(path)) == FileInfo.FileName(path)
    ensures Filepath(FromPath(path), cwd) == Some(FileInfo.AbsoluteFilePath(path, cwd))
  {
    PathSpec(FromPath(path), path, cwd);
  }

  /** A contents specification gives back its name's last component and its text, and has no path. */
  lemma ContentsRoundTrip(filename: string, contents: string, cwd: string, read: Option<string>)
    ensures FormatOf(FromContents(filename, contents)) == ContentsFormat
    ensures Filename(FromContents(filename, contents)) == FileInfo.FileName(filename)
    ensures ContentsOf(FromContents(filename, contents), read) == contents
    ensures Filepath(FromContents(filename, contents), cwd).None?
  {
    var s := FromContents(filename, contents);
    DistinctKeys();
    assert s.json["filename"] == JString(filename);
    ContentsSpec(s, filename, contents, read);
  }

  /** A "path" member makes a Path specification whatever else the object holds. */
  lemma PathWins(s: Spec, path: string, cwd: string)
    ensures var t := Spec(s.json["path" := JString(path)]);
      FormatOf(t) == PathFormat && Filename(t) == FileInfo.FileName(path)
  {
    PathSpec(Spec(s.json["path" := JString(path)]), path, cwd);
  }

  /** Without a path, one of "filename" and "contents" alone leaves the specification invalid. */
  lemma HalfContentsIsInvalid(s: Spec)
    requires "path" !in s.json && ("filename" !in s.json || "contents" !in s.json)
    ensures FormatOf(s) == InvalidFormat && Filename(s) == "" && ContentsOf(s, None) == ""
  {
  }

  /** An invalid specification has no name, no path, no text, and is never written. */
  lemma InvalidIsEmpty(s: Spec, cwd: string, dir: string, name: Option<string>, opens: bool, read: Option<string>)
    requires FormatOf(s) == InvalidFormat
    ensures Filename(s) == "" && Filepath(s, cwd).None? && ContentsOf(s, read) == ""
    ensures WriteFile(s, dir, name, opens, read).None? && FileExtension(s) == [] && !FileHasExtension(s)
  {
  }

  /** The absolute path of a Path specification ends in its file name. */
  lemma FilepathEndsInFilename(s: Spec, cwd: string)
    requires FormatOf(s) == PathFormat
    ensures FileInfo.FileName(Filepath(s, cwd).value) == Filename(s)
  {
    FileInfo.AbsoluteKeepsFileName(Text(s.json["path"]), cwd);
  }

  /** Written under its own name, a valid specification lands in `dir` under its file name, with its text. */
  lemma WriteOwnName(s: Spec, dir: string, read: Option<string>)
    requires FormatOf(s) != InvalidFormat
    ensures var w := WriteFile(s, dir, None, true, read);
      w.Some? && FileInfo.FileName(w.value.0) == Filename(s) && w.value.1 == ContentsOf(s, read)
  {
    FileInfo.AbsoluteKeepsFileName(Filename(s), dir);
    BareName(Filename(s));
  }

  /** "dir/base.ext" has base name "base" and extension "ext". */
  lemma NameWithExtension(dir: string, base: string, ext: string, cwd: string)
    requires '/' !in base && '/' !in ext && '.' !in base && '.' !in ext
    requires dir == [] || dir[|dir| - 1] == '/'
    ensures var s := FromPath(dir + (base + "." + ext));
      FileBaseName(s) == base && FileExtension(s) == ext && (FileHasExtension(s) <==> ext != [])
  {
    var name := base + "." + ext;
    PathSpec(FromPath(dir + name), dir + name, cwd);
    FileInfo.FileNameOf(dir, name);
    FileInfo.NameParts(base, ext);
  }

  /** "dir/base" has base name "base" and no extension. */
  lemma NameWithoutExtension(dir: string, base: string, cwd: string)
    requires '/' !in base && '.' !in base
    requires dir == [] || dir[|dir| - 1] == '/'
    ensures var s := FromPath(dir + base);
      FileBaseName(s) == base && FileExtension(s) == [] && !FileHasExtension(s)
  {
    PathSpec(FromPath(dir + base), dir + base, cwd);
    FileInfo.FileNameOf(dir, base);
  }

  /** A file that cannot be read gives an invalid Contents specification. */
  lemma FromUnreadableFile(fileName: string, cwd: string)
    ensures FormatOf(FromFile(fileName, cwd, ContentsFormat, None)) == InvalidFormat
  {
    var s := FromFile(fileName, cwd, ContentsFormat, None);
    assert "path" !in s.json && "contents" !in s.json;
  }

  /** A file read into a Contents specification keeps its bare name and its text. */
  lemma FromReadFile(fileName: string, cwd: string, text: string)
    ensures var s := FromFile(fileName, cwd, ContentsFormat, Some(text));
      FormatOf(s) == ContentsFormat && Filename(s) == FileInfo.FileName(fileName) && ContentsOf(s, None) == text
  {
    var name := FileInfo.FileName(fileName);
    ContentsRoundTrip(name, text, cwd, None);
    BareName(name);
  }

  /** A path made absolute against an absolute directory stays as it is when made absolute again. */
  lemma AbsoluteTwice(path: string, cwd: string)
    requires |cwd| > 0 && cwd[0] == '/'
    ensures FileInfo.AbsoluteFilePath(FileInfo.AbsoluteFilePath(path, cwd), cwd) == FileInfo.AbsoluteFilePath(path, cwd)
  {
    var p := FileInfo.AbsoluteFilePath(path, cwd);
    if !(|path| > 0 && path[0] == '/') {
      assert p[0] == cwd[0];
    }
  }

  /** A file taken as a Path specification keeps its file name and its absolute path. */
  lemma FromFilePath(fileName: string, cwd: string)
    requires |cwd| > 0 && cwd[0] == '/'
    ensures var s := FromFile(fileName, cwd, PathFormat, None);
      FormatOf(s) == PathFormat && Filename(s) == FileInfo.FileName(fileName)
      && Filepath(s, cwd) == Some(FileInfo.AbsoluteFilePath(fileName, cwd))
  {
    var p := FileInfo.AbsoluteFilePath(fileName, cwd);
    PathSpec(FromFile(fileName, cwd, PathFormat, None), p, cwd);
    FileInfo.AbsoluteKeepsFileName(fileName, cwd);
    AbsoluteTwice(fileName, cwd);
  }
}
