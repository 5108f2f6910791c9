/**
 * FileSpec, the older form of FileSpecification: the same three formats over
 * a JsonCpp value, with the path under "filepath". The value need not be an
 * object (the default constructor leaves it null), and members are read
 * through C strings, so their text ends at the first NUL character.
 *
 * The file system is a parameter, as in FileSpecification.
 */
module LegacyFileSpec {
  import opened Wrappers
  import opened JsonValue
  import opened QtVariant
  import QtJson
  import FileInfo

  datatype Format = InvalidFormat | PathFormat | ContentsFormat

  /** The JSON value a specification holds. */
  datatype Spec = Spec(json: Json)

  /** Json::Value::asCString of a string member, as a QString reads it. */
  function CText(v: Json): string {
    if v.JString? then QtJson.CString(v.s) else ""
  }

  /** The default constructor: a null value. */
  const Empty: Spec := Spec(JNull)

  /** The constructor from a QVariantHash. */
  function FromHash(hash: map<string, Variant>): Spec {
    Spec(QtJson.QtToJson(VHash(hash)))
  }

  /** The constructor from a path on disk. */
  function FromPath(path: string): Spec {
    Spec(JObject(map["filepath" := JString(path)]))
  }

  /** The constructor from a file name and the file's text. */
  function FromContents(filename: string, contents: string): Spec {
    Spec(JObject(map["filename" := JString(filename), "contents" := JString(contents)]))
  }

  /**
   * The constructor from an open file. The text read is stored as a C
   * string; a file that cannot be read leaves only "filename"; the Invalid
   * format leaves the value null.
   */
  function FromFile(fileName: string, cwd: string, format: Format, read: Option<string>): Spec {
    match format
    case PathFormat => Spec(JObject(map["filepath" := JString(FileInfo.AbsoluteFilePath(fileName, cwd))]))
    case ContentsFormat =>
      var named := map["filename" := JString(FileInfo.FileName(fileName))];
      if read.None? then Spec(JObject(named))
      else Spec(JObject(named["contents" := JString(QtJson.CString(read.value))]))
    case InvalidFormat => Empty
  }

  /** format(): only an object has a format; "filepath" wins, else "filename" and "contents" are both needed. */
  function FormatOf(s: Spec): Format {
    if s.json.JObject? && "filepath" in s.json.members then PathFormat
    else if s.json.JObject? && "filename" in s.json.members && "contents" in s.json.members then ContentsFormat
    else InvalidFormat
  }

  /** asVariantHash(): the object as a QVariantHash; empty for any other value. */
  function AsVariantHash(s: Spec): map<string, Variant> {
    if s.json.JObject? then QtJson.JsonToQt(s.json).entries else map[]
  }

  /** filename(): the last component of the stored path or name; empty when invalid. */
  function Filename(s: Spec): (name: string)
    ensures '/' !in name
  {
    match FormatOf(s)
    case InvalidFormat => ""
    case PathFormat => FileInfo.FileName(CText(s.json.members["filepath"]))
    case ContentsFormat => FileInfo.FileName(CText(s.json.members["filename"]))
  }

  /** filepath(): the absolute path of a Path specification, a null string (None) otherwise. */
  function Filepath(s: Spec, cwd: string): (path: Option<string>)
    ensures path.Some? <==> FormatOf(s) == PathFormat
  {
    if FormatOf(s) == PathFormat then Some(FileInfo.AbsoluteFilePath(CText(s.json.members["filepath"]), cwd))
    else None
  }

  /** contents(): the stored text, or the text read from a Path specification's file; empty otherwise. */
  function ContentsOf(s: Spec, read: Option<string>): string {
    match FormatOf(s)
    case InvalidFormat => ""
    case PathFormat => if read.Some? then read.value else ""
    case ContentsFormat => CText(s.json.members["contents"])
  }

  /** fileExists(): only a Path specification can name an existing file. */
  function FileExists(s: Spec, onDisk: string -> bool): (r: bool)
    ensures r ==> FormatOf(s) == PathFormat
  {
    FormatOf(s) == PathFormat && onDisk(CText(s.json.members["filepath"]))
  }

  /** writeFile(dir, name): the path and text written, or None (false). */
  function WriteFile(s: Spec, dir: string, name: Option<string>, opens: bool, read: Option<string>)
    : (written: Option<(string, string)>)
    ensures FormatOf(s) == InvalidFormat || !opens ==> written.None?
  {
    if FormatOf(s) == InvalidFormat || !opens then None
    else
      var target := if name.None? then Filename(s) else name.value;
      Some((FileInfo.AbsoluteFilePath(target, dir), ContentsOf(s, read)))
  }

  /** fileHasExtension(). */
  predicate FileHasExtension(s: Spec) {
    FileInfo.Suffix(Filename(s)) != []
  }

  /** fileBaseName(). */
  function FileBaseName(s: Spec): string {
    FileInfo.BaseName(Filename(s))
  }

  /** fileExtension(). */
  function FileExtension(s: Spec): string {
    FileInfo.Suffix(Filename(s))
  }

  // ---- Properties ----

  lemma DistinctKeys()
    ensures "filename" != "contents" && "filepath" != "filename" && "filepath" != "contents"
  {
    assert "filename"[0] != "contents"[0];
    assert "filepath"[4] != "filename"[4];
    assert "filepath"[0] != "contents"[0];
  }

  /** Text without a NUL reads back whole as a C string. */
  lemma {:induction false} CStringWhole(s: string)
    requires '\0' !in s
    ensures QtJson.CString(s) == s
    decreases |s|
  {
    if s != [] {
      assert s[0] in s;
      assert forall c :: c in s[1..] ==> c in s;
      CStringWhole(s[1..]);
    }
  }

  /** What any object with a "filepath" member answers. */
  lemma PathSpec(s: Spec, path: string, cwd: string)
    requires s.json.JObject? && "filepath" in s.json.members && s.json.members["filepath"] == JString(path)
    ensures FormatOf(s) == PathFormat && Filename(s) == FileInfo.FileName(QtJson.CString(path))
    ensures Filepath(s, cwd) == Some(FileInfo.AbsoluteFilePath(QtJson.CString(path), cwd))
  {
  }

  /** What an object with "filename" and "contents" members and no "filepath" answers. */
  lemma ContentsSpec(s: Spec, filename: string, contents: string, read: Option<string>)
    requires s.json.JObject? && "filepath" !in s.json.members
    requires "filename" in s.json.members && "contents" in s.json.members
    requires s.json.members["filename"] == JString(filename) && s.json.members["contents"] == JString(contents)
    ensures FormatOf(s) == ContentsFormat && Filename(s) == FileInfo.FileName(QtJson.CString(filename))
    ensures ContentsOf(s, read) == QtJson.CString(contents)
  {
  }

  /** A path specification gives back its path's file name and, made absolute, its path. */
  lemma PathRoundTrip(path: string, cwd: string)
    requires '\0' !in path
    ensures FormatOf(FromPath(path)) == PathFormat
    ensures Filename(FromPath(path)) == FileInfo.FileName(path)
    ensures Filepath(FromPath(path), cwd) == Some(FileInfo.AbsoluteFilePath(path, cwd))
  {
    PathSpec(FromPath(path), path, cwd);
    CStringWhole(path);
  }

  /** A contents specification gives back its name's last component and its text up to the first NUL. */
  lemma ContentsRoundTrip(filename: string, contents: string, cwd: string, read: Option<string>)
    requires '\0' !in filename
    ensures FormatOf(FromContents(filename, contents)) == ContentsFormat
    ensures Filename(FromContents(filename, contents)) == FileInfo.FileName(filename)
    ensures ContentsOf(FromContents(filename, contents), read) == QtJson.CString(contents)
    ensures '\0' !in contents ==> ContentsOf(FromContents(filename, contents), read) == contents
    ensures Filepath(FromContents(filename, contents), cwd).None?
  {
    var s := FromContents(filename, contents);
    DistinctKeys();
    assert s.json.members["filename"] == JString(filename);
    ContentsSpec(s, filename, contents, read);
    CStringWhole(filename);
    if '\0' !in contents {
      CStringWhole(contents);
    }
  }

  /** Anything but an object is invalid, converts to an empty hash, and is never written. */
  lemma NonObjectIsInvalid(s: Spec, cwd: string, dir: string, name: Option<string>, opens: bool, read: Option<string>)
    requires !s.json.JObject?
    ensures FormatOf(s) == InvalidFormat && AsVariantHash(s) == map[]
    ensures Filename(s) == "" && Filepath(s, cwd).None? && ContentsOf(s, read) == ""
    ensures WriteFile(s, dir, name, opens, read).None?
  {
  }

  /** A hash stored in a specification comes back from asVariantHash, its 32-bit integers widened to 64 bits. */
  lemma HashRoundTrip(hash: map<string, Variant>)
    requires QtJson.Convertible(VHash(hash))
    ensures AsVariantHash(FromHash(hash)) == QtJson.Widened(VHash(hash)).entries
  {
    QtJson.VariantRoundTrip(VHash(hash));
  }

  /** A hash with a "filepath" entry makes a Path specification. */
  lemma HashWithPath(hash: map<string, Variant>, path: string, cwd: string)
    requires "filepath" in hash && hash["filepath"] == VString(path)
    ensures FormatOf(FromHash(hash)) == PathFormat
    ensures Filename(FromHash(hash)) == FileInfo.FileName(QtJson.CString(path))
  {
    assert FromHash(hash).json.members["filepath"] == QtJson.QtToJson(VString(path));
    PathSpec(FromHash(hash), path, cwd);
  }

  /** A file that cannot be read gives an invalid Contents specification. */
  lemma FromUnreadableFile(fileName: string, cwd: string)
    ensures FormatOf(FromFile(fileName, cwd, ContentsFormat, None)) == InvalidFormat
  {
    var s := FromFile(fileName, cwd, ContentsFormat, None);
    assert "filepath" !in s.json.members && "contents" !in s.json.members;
  }

  /** A file read into a Contents specification keeps its bare name and its text up to the first NUL. */
  lemma FromReadFile(fileName: string, cwd: string, text: string)
    requires '\0' !in fileName
    ensures var s := FromFile(fileName, cwd, ContentsFormat, Some(text));
      FormatOf(s) == ContentsFormat && Filename(s) == FileInfo.FileName(fileName)
      && ContentsOf(s, None) == QtJson.CString(text)
  {
    var name := FileInfo.FileName(fileName);
    var stored := QtJson.CString(text);
    var s := FromFile(fileName, cwd, ContentsFormat, Some(text));
    assert s == FromContents(name, stored);
    BareNameNoNul(fileName);
    ContentsRoundTrip(name, stored, cwd, None);
    BareName(name);
  }

  /** The last component of a path without NUL characters has none either. */
  lemma BareNameNoNul(path: string)
    requires '\0' !in path
    ensures '\0' !in FileInfo.FileName(path)
  {
    var name := FileInfo.FileName(path);
    FileInfo.FileNameIsSuffix(path);
    assert forall i :: 0 <= i < |name| ==> name[i] == path[|path| - |name| + i];
  }

  /** A file name with no '/' is its own last component. */
  lemma BareName(name: string)
    requires '/' !in name
    ensures FileInfo.FileName(name) == name
  {
    FileInfo.FileNameOf([], name);
    assert [] + name == name;
  }

  /** An invalid specification, object or not, is never written, whatever name it is given. */
  lemma InvalidNeverWritten(s: Spec, dir: string, name: Option<string>, opens: bool, read: Option<string>)
    requires FormatOf(s) == InvalidFormat
    ensures WriteFile(s, dir, name, opens, read).None? && Filename(s) == ""
  {
  }
}
