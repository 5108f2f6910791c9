/**
 * The prototype Job of molequeue/job.cpp: a job's names and files, its
 * status text, and the keyword replacements that turn its program's run
 * template into the script that is run. The program is reduced to the two
 * things the job reads from it, its keyword delimiter and its run
 * template.
 */
module PrototypeJob {
  import opened TextOps
  import FileInfo
  import StringOrder

  /** The prototype's job status; OutOfRange stands for any other value the field may hold. */
  datatype Status = Undefined | Queued | RemoteQueued | Running | Complete | Failed | OutOfRange

  /** statusString: one text per status, and "Undefined" for anything else. */
  function StatusString(status: Status): (s: string)
    ensures s == "Undefined" <==> status == Undefined || status == OutOfRange
  {
    match status
    case Undefined => "Undefined"
    case Queued => "Queued (L)"
    case RemoteQueued => "Queued (R)"
    case Running => "Running"
    case Complete => "Completed"
    case Failed => "Failed"
    case OutOfRange => "Undefined"
  }

  /** The six statuses have six different texts. */
  lemma StatusStringsDistinct(a: Status, b: Status)
    requires a != b && a != OutOfRange && b != OutOfRange
    ensures StatusString(a) != StatusString(b)
  {
    assert "Queued (L)"[8] != "Queued (R)"[8];
    assert "Running"[0] != "Failed"[0];
  }

  /** replacement: the value of a keyword, or the empty string for an unknown one. */
  function Lookup(replacements: map<string, string>, keyword: string): (v: string)
    ensures keyword in replacements ==> v == replacements[keyword]
    ensures keyword !in replacements ==> v == []
  {
    if keyword in replacements then replacements[keyword] else []
  }

  /** Setting a keyword overwrites its value and leaves every other keyword alone. */
  lemma LookupAfterSet(replacements: map<string, string>, keyword: string, value: string, other: string)
    ensures Lookup(replacements[keyword := value], keyword) == value
    ensures other != keyword ==> Lookup(replacements[keyword := value], other) == Lookup(replacements, other)
  {
  }

  /** The text a keyword stands for in a template: the keyword between two delimiters. */
  function Pattern(delimiter: string, keyword: string): string {
    delimiter + keyword + delimiter
  }

  /** QString::replace, which leaves the text alone when the text to find is empty. */
  function ReplaceText(s: string, before: string, after: string): string {
    if before == [] then s else Replace(s, before, after)
  }

  /** The template with the keywords' patterns replaced, one keyword after the other in the order given. */
  function ExpandAll(template: string, delimiter: string, replacements: map<string, string>, keys: seq<string>): string {
    if keys == [] then template
    else
      var key := keys[|keys| - 1];
      ReplaceText(ExpandAll(template, delimiter, replacements, keys[..|keys| - 1]), Pattern(delimiter, key),
                  Lookup(replacements, key))
  }

  /** A template in which no keyword's pattern occurs comes out as it went in. */
  lemma {:induction false} ExpandNoKeywords(template: string, delimiter: string, replacements: map<string, string>,
                                            keys: seq<string>)
    requires forall i :: 0 <= i < |keys| ==> !Contains(template, Pattern(delimiter, keys[i]))
    ensures ExpandAll(template, delimiter, replacements, keys) == template
  {
    if keys != [] {
      ExpandNoKeywords(template, delimiter, replacements, keys[..|keys| - 1]);
      var p := Pattern(delimiter, keys[|keys| - 1]);
      if p != [] {
        ReplaceAbsent(template, p, Lookup(replacements, keys[|keys| - 1]));
      } else {
        assert OccursAt(template, p, 0);
      }
    }
  }

  /** A keyword whose value is its own pattern leaves the template as it is. */
  lemma ExpandSelfKeyword(template: string, delimiter: string, key: string)
    ensures ExpandAll(template, delimiter, map[key := Pattern(delimiter, key)], [key]) == template
  {
    var p := Pattern(delimiter, key);
    assert [key][..0] == [];
    if p != [] {
      ReplaceSelf(template, p);
    }
  }

  /** One line of replacementList. */
  function Line(key: string, value: string): string {
    "Keyword: " + key + " = " + value + "\n"
  }

  /** One line per keyword, in the order given. */
  function Lines(replacements: map<string, string>, keys: seq<string>): string {
    if keys == [] then []
    else Lines(replacements, keys[..|keys| - 1]) + Line(keys[|keys| - 1], Lookup(replacements, keys[|keys| - 1]))
  }

  /** One more keyword adds its line at the end. */
  lemma LinesSnoc(replacements: map<string, string>, keys: seq<string>, i: nat)
    requires i < |keys|
    ensures Lines(replacements, keys[..i + 1]) == Lines(replacements, keys[..i]) + Line(keys[i], Lookup(replacements, keys[i]))
  {
    assert keys[..i + 1][..i] == keys[..i];
  }

  /** Every keyword's line is in the list. */
  lemma {:induction false} LinesListEveryKey(replacements: map<string, string>, keys: seq<string>, i: nat)
    requires i < |keys|
    ensures Contains(Lines(replacements, keys), Line(keys[i], Lookup(replacements, keys[i])))
    decreases |keys|
  {
    var init := keys[..|keys| - 1];
    var last := Line(keys[|keys| - 1], Lookup(replacements, keys[|keys| - 1]));
    var prefix := Lines(replacements, init);
    var s := prefix + last;
    if i == |keys| - 1 {
      assert s[|prefix|..|prefix| + |last|] == last;
      assert OccursAt(s, last, |prefix|);
    } else {
      assert init[i] == keys[i];
      LinesListEveryKey(replacements, init, i);
      var p := Line(keys[i], Lookup(replacements, keys[i]));
      var j :| 0 <= j <= |prefix| - |p| && OccursAt(prefix, p, j);
      assert s[j..j + |p|] == prefix[j..j + |p|];
      assert OccursAt(s, p, j);
    }
  }

  /** What the replacementList loop as written leaves: only the line of the last key. */
  function LastLine(replacements: map<string, string>, keys: seq<string>): string {
    if keys == [] then [] else Line(keys[|keys| - 1], Lookup(replacements, keys[|keys| - 1]))
  }

  /** With two or more keywords the list as written is not the list of all of them: it is shorter. */
  lemma LastLineLosesKeys(replacements: map<string, string>, keys: seq<string>)
    requires |keys| >= 2
    ensures |LastLine(replacements, keys)| < |Lines(replacements, keys)|
    ensures LastLine(replacements, keys) != Lines(replacements, keys)
  {
    var init := keys[..|keys| - 1];
    assert init[..|init| - 1] == keys[..|keys| - 2];
    assert |Lines(replacements, init)| >= |Line(init[|init| - 1], Lookup(replacements, init[|init| - 1]))| > 0;
  }

  /** QFileInfo(file).baseName(): the file name without its directory and without any suffix. */
  function FileBase(file: string): string {
    FileInfo.BaseName(FileInfo.FileName(file))
  }

  /** The base name of a file name's path: "dir/run.inp" gives "run". */
  lemma FileBaseName(dir: string, base: string, ext: string)
    requires '/' !in base && '/' !in ext && '.' !in base && '.' !in ext
    requires dir == [] || dir[|dir| - 1] == '/'
    ensures FileBase(dir + (base + "." + ext)) == base
  {
    assert '/' !in base + "." + ext by {
      assert forall i :: 0 <= i < |base + "." + ext| ==> (base + "." + ext)[i] in base || (base + "." + ext)[i] == '.' || (base + "." + ext)[i] in ext;
    }
    FileInfo.FileNameOf(dir, base + "." + ext);
    FileInfo.NameParts(base, ext);
  }

  class Job {
    const delimiter: string
    const runTemplate: string
    var name: string
    var title: string
    var workingDirectory: string
    var inputFile: string
    var outputFile: string
    var status: Status
    var replacements: map<string, string>

    /**
     * A job of the given program. The constructor leaves the status
     * uninitialised: `status` is whatever the field held.
     */
    constructor (delimiter: string, runTemplate: string, status: Status)
      ensures this.delimiter == delimiter && this.runTemplate == runTemplate && this.status == status
      ensures name == [] && title == [] && workingDirectory == [] && inputFile == [] && outputFile == []
      ensures replacements == map[]
    {
      this.delimiter := delimiter;
      this.runTemplate := runTemplate;
      this.status := status;
      name, title, workingDirectory, inputFile, outputFile := [], [], [], [], [];
      replacements := map[];
    }

    method SetName(name: string)
      modifies this
      ensures this.name == name && title == old(title) && replacements == old(replacements)
      ensures workingDirectory == old(workingDirectory) && inputFile == old(inputFile) && outputFile == old(outputFile)
      ensures status == old(status)
    {
      this.name := name;
    }

    method SetTitle(title: string)
      modifies this
      ensures this.title == title && name == old(name) && replacements == old(replacements)
      ensures workingDirectory == old(workingDirectory) && inputFile == old(inputFile) && outputFile == old(outputFile)
      ensures status == old(status)
    {
      this.title := title;
    }

    /** replacement. */
    function Replacement(keyword: string): string
      reads this
    {
      Lookup(replacements, keyword)
    }

    /** setReplacement: the keyword's value is set, whether or not it had one. */
    method SetReplacement(keyword: string, value: string)
      modifies this
      ensures replacements == old(replacements)[keyword := value]
      ensures name == old(name) && title == old(title) && workingDirectory == old(workingDirectory)
      ensures inputFile == old(inputFile) && outputFile == old(outputFile) && status == old(status)
    {
      replacements := replacements[keyword := value];
    }

    /** setWorkingDirectory: the field and the "workingDirectory" keyword. */
    method SetWorkingDirectory(dir: string)
      modifies this
      ensures workingDirectory == dir && replacements == old(replacements)["workingDirectory" := dir]
      ensures name == old(name) && title == old(title) && inputFile == old(inputFile) && outputFile == old(outputFile)
      ensures status == old(status)
    {
      workingDirectory := dir;
      SetReplacement("workingDirectory", dir);
    }

    /** setInputFile: the field, and the "input" keyword set to the file's base name. */
    method SetInputFile(file: string)
      modifies this
      ensures inputFile == file
      ensures replacements == old(replacements)["input" := FileBase(file)]
      ensures name == old(name) && title == old(title) && workingDirectory == old(workingDirectory)
      ensures outputFile == old(outputFile) && status == old(status)
    {
      inputFile := file;
      SetReplacement("input", FileBase(file));
    }

    /** setOutputFile: the field, and the "output" keyword set to the file's base name. */
    method SetOutputFile(file: string)
      modifies this
      ensures outputFile == file
      ensures replacements == old(replacements)["output" := FileBase(file)]
      ensures name == old(name) && title == old(title) && workingDirectory == old(workingDirectory)
      ensures inputFile == old(inputFile) && status == old(status)
    {
      outputFile := file;
      SetReplacement("output", FileBase(file));
    }

    /**
     * expandedRunTemplate: the run template with each keyword's pattern
     * replaced by its value, keyword after keyword in the map's order.
     */
    method ExpandedRunTemplate() returns (expanded: string)
      ensures expanded == ExpandAll(runTemplate, delimiter, replacements, StringOrder.SortedStrings(replacements.Keys))
    {
      var keys := StringOrder.SortedStrings(replacements.Keys);
      expanded := runTemplate;
      var i := 0;
      while i < |keys|
        invariant 0 <= i <= |keys|
        invariant expanded == ExpandAll(runTemplate, delimiter, replacements, keys[..i])
      {
        assert keys[..i + 1][..i] == keys[..i];
        expanded := ReplaceText(expanded, delimiter + keys[i] + delimiter, replacements[keys[i]]);
        i := i + 1;
      }
      assert keys[..|keys|] == keys;
    }

    /**
     * replacementList as written: each line is assigned over the one
     * before, so only the last keyword's line is returned.
     */
    method ReplacementListAsWritten() returns (list: string)
      ensures list == LastLine(replacements, StringOrder.SortedStrings(replacements.Keys))
    {
      var keys := StringOrder.SortedStrings(replacements.Keys);
      list := [];
      var i := 0;
      while i < |keys|
        invariant 0 <= i <= |keys|
        invariant list == LastLine(replacements, keys[..i])
      {
        list := "Keyword: " + keys[i] + " = " + replacements[keys[i]] + "\n";
        i := i + 1;
      }
      assert keys[..|keys|] == keys;
    }

    /** replacementList as intended: one line per keyword, in the map's order. */
    method ReplacementList() returns (list: string)
      ensures list == Lines(replacements, StringOrder.SortedStrings(replacements.Keys))
    {
      list := ListLines(replacements, StringOrder.SortedStrings(replacements.Keys));
    }

    /** The loop of replacementList as intended, over the keywords in the order given. */
    static method ListLines(replacements: map<string, string>, keys: seq<string>) returns (list: string)
      requires forall k :: k in keys ==> k in replacements
      ensures list == Lines(replacements, keys)
    {
      list := [];
      var i := 0;
      while i < |keys|
        invariant 0 <= i <= |keys|
        invariant list == Lines(replacements, keys[..i])
      {
        LinesSnoc(replacements, keys, i);
        list := list + Line(keys[i], replacements[keys[i]]);
        i := i + 1;
      }
      assert keys[..|keys|] == keys;
    }
  }
}
