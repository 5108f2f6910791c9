/**
 * A program a queue can run (molequeue/app/program.cpp): its executable and
 * arguments, the output file name, the launch syntax and a custom launch
 * template, the command line each syntax produces, the launch template the
 * queue's template turns into, and the JSON settings.
 *
 * The queue a program belongs to is passed in where it is read: its launch
 * template (None when the program has no queue) and, for a remote queue, its
 * remote working directory base.
 */
module Programs {
  import opened Wrappers
  import opened JsonValue
  import opened TextOps

  /** The LaunchSyntax enumerators, in declaration order. */
  const Custom: int := 0
  const Plain: int := 1
  const InputArg: int := 2
  const InputArgNoExt: int := 3
  const Redirect: int := 4
  const InputArgOutputRedirect: int := 5
  const SyntaxCount: int := 6

  const ProgramExecutionKeyword: string := "$$programExecution$$"
  const RemoteWorkingDirKeyword: string := "$$remoteWorkingDir$$"
  const UnrecognizedSyntaxMessage: string := "Internal MoleQueue error: Unrecognized syntax type.\n"

  /** The executable, followed by a space and the arguments when there are any. */
  function Command(executable: string, arguments: string): (c: string)
    ensures arguments == "" ==> c == executable
    ensures arguments != "" ==> c == executable + " " + arguments
  {
    executable + (if arguments == "" then "" else " " + arguments)
  }

  /**
   * generateFormattedExecutionString: nothing for the custom syntax, the
   * command line for the others, and an error text for a value outside the
   * enumeration.
   */
  function FormattedExecutionString(executable: string, arguments: string, outputFilename: string, syntax: int): (r: string)
    ensures syntax == Custom ==> r == ""
    ensures Plain <= syntax < SyntaxCount ==> StartsWith(r, Command(executable, arguments))
    ensures !(Custom <= syntax < SyntaxCount) ==> r == UnrecognizedSyntaxMessage
  {
    var command := Command(executable, arguments);
    if syntax == Custom then ""
    else if syntax == Plain then command
    else if syntax == InputArg then command + " $$inputFileName$$\n"
    else if syntax == InputArgNoExt then command + " $$inputFileBaseName$$\n"
    else if syntax == Redirect then command + " < $$inputFileName$$ > " + outputFilename + "\n"
    else if syntax == InputArgOutputRedirect then command + " $$inputFileName$$ > " + outputFilename + "\n"
    else UnrecognizedSyntaxMessage
  }

  /**
   * Every syntax but the plain one ends its line; the input file is named
   * with its extension by all syntaxes except INPUT_ARG_NO_EXT, and the
   * output file appears exactly for the two redirecting ones.
   */
  lemma ExecutionStringShapes(executable: string, arguments: string, outputFilename: string, syntax: int)
    requires Plain < syntax < SyntaxCount
    ensures var r := FormattedExecutionString(executable, arguments, outputFilename, syntax);
            var rest := r[|Command(executable, arguments)|..];
            EndsWith(r, "\n") &&
            (StartsWith(rest, " $$inputFileBaseName$$") <==> syntax == InputArgNoExt) &&
            (EndsWith(rest, " > " + outputFilename + "\n") <==> syntax == Redirect || syntax == InputArgOutputRedirect)
  {
    var command := Command(executable, arguments);
    var r := FormattedExecutionString(executable, arguments, outputFilename, syntax);
    var rest := Tail(outputFilename, syntax);
    assert r == command + rest;
    assert r[|command|..] == rest;
    assert EndsWith(r, "\n") by {
      assert r[|r| - 1..] == rest[|rest| - 1..];
    }
    TailShapes(outputFilename, syntax);
  }

  /** What FormattedExecutionString puts after the command, for the syntaxes that add something. */
  function Tail(outputFilename: string, syntax: int): string
    requires Plain < syntax < SyntaxCount
  {
    if syntax == InputArg then " $$inputFileName$$\n"
    else if syntax == InputArgNoExt then " $$inputFileBaseName$$\n"
    else if syntax == Redirect then " < $$inputFileName$$ > " + outputFilename + "\n"
    else " $$inputFileName$$ > " + outputFilename + "\n"
  }

  lemma TailShapes(outputFilename: string, syntax: int)
    requires Plain < syntax < SyntaxCount
    ensures var rest := Tail(outputFilename, syntax);
            EndsWith(rest, "\n") &&
            (StartsWith(rest, " $$inputFileBaseName$$") <==> syntax == InputArgNoExt) &&
            (EndsWith(rest, " > " + outputFilename + "\n") <==> syntax == Redirect || syntax == InputArgOutputRedirect)
  {
    var rest := Tail(outputFilename, syntax);
    var base := " $$inputFileBaseName$$";
    if syntax == InputArg {
      NoRedirection(rest, outputFilename);
    } else if syntax == InputArgNoExt {
      assert rest[..|base|] == base;
      NoRedirection(rest, outputFilename);
    } else if syntax == Redirect {
      assert rest[1] != base[1];
      assert rest[|rest| - |outputFilename| - 4..] == " > " + outputFilename + "\n";
    } else {
      assert rest[..|base|][12] != base[12];
      assert rest[|rest| - |outputFilename| - 4..] == " > " + outputFilename + "\n";
    }
  }

  /** A text without '>' does not end with a redirection. */
  lemma NoRedirection(rest: string, outputFilename: string)
    requires forall k :: 0 <= k < |rest| ==> rest[k] != '>'
    ensures !EndsWith(rest, " > " + outputFilename + "\n")
  {
    var redirection := " > " + outputFilename + "\n";
    if |redirection| <= |rest| {
      assert rest[|rest| - |redirection|..][1] != redirection[1];
    }
  }

  /** The five settings a program reads and writes. */
  datatype Settings = Settings(
    executable: string,
    arguments: string,
    outputFilename: string,
    customLaunchTemplate: string,
    launchSyntax: int)

  /** writeJsonSettings: the five members, the syntax as a double. */
  function SettingsToJson(s: Settings): (j: Json)
    ensures Keys(j) == {"executable", "arguments", "outputFilename", "customLaunchTemplate", "launchSyntax"}
  {
    JObject(map[
      "executable" := JString(s.executable),
      "arguments" := JString(s.arguments),
      "outputFilename" := JString(s.outputFilename),
      "customLaunchTemplate" := JString(s.customLaunchTemplate),
      "launchSyntax" := JReal(s.launchSyntax as real)])
  }

  /**
   * readJsonSettings' validation and reading: four strings and a number, or
   * nothing at all; the syntax is the number plus one half, truncated.
   */
  function SettingsFromJson(j: Json): (r: Option<Settings>)
    ensures r.Some? <==>
      Get(j, "executable").JString? && Get(j, "arguments").JString? &&
      Get(j, "outputFilename").JString? && Get(j, "customLaunchTemplate").JString? &&
      IsNumeric(Get(j, "launchSyntax"))
    ensures r.Some? ==>
      r.value.executable == Get(j, "executable").s &&
      r.value.launchSyntax == Truncate(ToReal(Get(j, "launchSyntax")) + 0.5)
  {
    if Get(j, "executable").JString? && Get(j, "arguments").JString? &&
       Get(j, "outputFilename").JString? && Get(j, "customLaunchTemplate").JString? &&
       IsNumeric(Get(j, "launchSyntax"))
    then
      Some(Settings(Get(j, "executable").s, Get(j, "arguments").s, Get(j, "outputFilename").s,
                    Get(j, "customLaunchTemplate").s, Truncate(ToReal(Get(j, "launchSyntax")) + 0.5)))
    else None
  }

  /**
   * Written settings read back the same exactly when the syntax is not
   * negative: a negative value n comes back as n + 1, because adding one
   * half and truncating rounds toward zero.
   */
  lemma SettingsRoundTrip(s: Settings)
    ensures SettingsFromJson(SettingsToJson(s)) == Some(s) <==> s.launchSyntax >= 0
  {
    var j := SettingsToJson(s);
    assert Get(j, "executable") == JString(s.executable);
    assert Get(j, "arguments") == JString(s.arguments);
    assert Get(j, "outputFilename") == JString(s.outputFilename);
    assert Get(j, "customLaunchTemplate") == JString(s.customLaunchTemplate);
    assert Get(j, "launchSyntax") == JReal(s.launchSyntax as real);
    var n := Truncate(s.launchSyntax as real + 0.5);
    if s.launchSyntax >= 0 {
      assert n == s.launchSyntax;
    } else {
      assert n == s.launchSyntax + 1;
    }
  }

  class Program {
    var name: string
    var executable: string
    var arguments: string
    var outputFilename: string
    var launchSyntax: int
    var customLaunchTemplate: string
    /** The nameChanged signals emitted, as (new name, old name). */
    var nameChanges: seq<(string, string)>

    /** The defaults a new program starts with. */
    constructor ()
      ensures name == "Program" && executable == "program" && arguments == ""
      ensures outputFilename == "$$inputFileBaseName$$.out"
      ensures launchSyntax == Redirect && customLaunchTemplate == "" && nameChanges == []
    {
      name := "Program";
      executable := "program";
      arguments := "";
      outputFilename := "$$inputFileBaseName$$.out";
      launchSyntax := Redirect;
      customLaunchTemplate := "";
      nameChanges := [];
    }

    function CurrentSettings(): Settings
      reads this
    {
      Settings(executable, arguments, outputFilename, customLaunchTemplate, launchSyntax)
    }

    /** setName: a different name is taken and announced with the old one; the same name does nothing. */
    method SetName(newName: string)
      modifies this
      ensures newName == old(name) ==> nameChanges == old(nameChanges)
      ensures newName != old(name) ==> nameChanges == old(nameChanges) + [(newName, old(name))]
      ensures name == newName && CurrentSettings() == old(CurrentSettings())
    {
      if newName != name {
        var oldName := name;
        name := newName;
        nameChanges := nameChanges + [(newName, oldName)];
      }
    }

    /** setLaunchSyntax: a value at or past SYNTAX_COUNT is ignored. */
    method SetLaunchSyntax(s: int)
      modifies this
      ensures launchSyntax == (if s >= SyntaxCount then old(launchSyntax) else s)
      ensures name == old(name) && nameChanges == old(nameChanges)
      ensures executable == old(executable) && arguments == old(arguments)
      ensures outputFilename == old(outputFilename) && customLaunchTemplate == old(customLaunchTemplate)
    {
      if s < SyntaxCount {
        launchSyntax := s;
      }
    }

    /** readJsonSettings: every member is checked before any is assigned. */
    method ReadJsonSettings(j: Json) returns (ok: bool)
      modifies this
      ensures ok <==> SettingsFromJson(j).Some?
      ensures ok ==> CurrentSettings() == SettingsFromJson(j).value
      ensures !ok ==> CurrentSettings() == old(CurrentSettings())
      ensures name == old(name) && nameChanges == old(nameChanges)
    {
      match SettingsFromJson(j) {
        case None =>
          ok := false;
        case Some(s) =>
          executable := s.executable;
          arguments := s.arguments;
          outputFilename := s.outputFilename;
          customLaunchTemplate := s.customLaunchTemplate;
          launchSyntax := s.launchSyntax;
          ok := true;
      }
    }

    /**
     * launchTemplate: the custom template for the custom syntax; otherwise
     * the queue's template (or the bare keyword without a queue) with the
     * command line in place of $$programExecution$$, and for a remote queue
     * "<base>/$$moleQueueId$$/" in place of $$remoteWorkingDir$$.
     */
    function LaunchTemplate(queueTemplate: Option<string>, remoteBase: Option<string>): (r: string)
      reads this
      ensures launchSyntax == Custom ==> r == customLaunchTemplate
      ensures launchSyntax != Custom && remoteBase.None? ==>
        r == Replace((if queueTemplate.Some? then queueTemplate.value else ProgramExecutionKeyword), ProgramExecutionKeyword,
                     FormattedExecutionString(executable, arguments, outputFilename, launchSyntax))
    {
      if launchSyntax == Custom then customLaunchTemplate
      else
        var template := (if queueTemplate.Some? then queueTemplate.value else ProgramExecutionKeyword);
        var progExec := FormattedExecutionString(executable, arguments, outputFilename, launchSyntax);
        var withProgram := if Contains(template, ProgramExecutionKeyword)
                           then Replace(template, ProgramExecutionKeyword, progExec)
                           else (ReplaceAbsent(template, ProgramExecutionKeyword, progExec); template);
        match remoteBase
        case Some(base) =>
          if Contains(withProgram, RemoteWorkingDirKeyword)
          then Replace(withProgram, RemoteWorkingDirKeyword, base + "/$$moleQueueId$$/")
          else withProgram
        case None => withProgram
    }

    /**
     * Without a queue the template is the command line itself, and a queue
     * template naming neither keyword is used as it is.
     */
    lemma LaunchTemplateDefaults(queueTemplate: string, remoteBase: Option<string>)
      requires launchSyntax != Custom
      ensures LaunchTemplate(None, None) ==
        FormattedExecutionString(executable, arguments, outputFilename, launchSyntax)
      ensures !Contains(queueTemplate, ProgramExecutionKeyword) && !Contains(queueTemplate, RemoteWorkingDirKeyword) ==>
        LaunchTemplate(Some(queueTemplate), remoteBase) == queueTemplate
    {
      var kw := ProgramExecutionKeyword;
      assert OccursAt(kw, kw, 0);
      assert Replace(kw, kw, FormattedExecutionString(executable, arguments, outputFilename, launchSyntax))
          == FormattedExecutionString(executable, arguments, outputFilename, launchSyntax) + Replace([], kw, FormattedExecutionString(executable, arguments, outputFilename, launchSyntax));
    }
  }
}
