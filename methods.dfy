/** `CMakeMethods`: the parameter lists of the commands that have one,
    the methods object that shows them as a parameter tip, and the Quick
    Info tip of a command. */
module Methods {
  import opened Wrappers
  import opened Strings
  import opened Keywords
  import SubcommandMethods

  // The parameter arrays. Several commands share one array; those are
  // written here as the array they share.
  const AddDependenciesParams: seq<string> := ["target_name", "depend_target1 depend_target2 ..."]
  const AddExecutableParams: seq<string> := ["name", "source1 source2 ..."]
  const AddSubdirectoryParams: seq<string> := ["source_dir", "[binary_dir]"]
  const AddTestParams: seq<string> := ["test_name", "exe_name", "arg1 arg2 ..."]
  const AuxSourceDirectoryParams: seq<string> := ["dir", "variable"]
  const ConfigureFileParams: seq<string> := ["input", "output"]
  const EnableLanguageParams: seq<string> := ["language_name"]
  const EndFunctionParams: seq<string> := ["[name]"]
  const EndMacroParams: seq<string> := EndFunctionParams
  const FindFileParams: seq<string> := ["variable", "name", "[path1 path2 ...]"]
  const FindPathParams: seq<string> := FindFileParams
  const FindProgramParams: seq<string> := FindFileParams
  const FltkWrapUiParams: seq<string> := ["resulting_library_name", "source1 source2 ..."]
  const ForEachParams: seq<string> := ["loop_variable", "arg1 arg2 ..."]
  const FunctionParams: seq<string> := ["name", "arg1 arg2 ..."]
  const GetCMakePropertyParams: seq<string> := ["variable", "property"]
  const GetDirectoryPropertyParams: seq<string> := GetCMakePropertyParams
  const GetFileNameComponentParams: seq<string> := ["variable", "filename", "component"]
  const GetSourceFilePropertyParams: seq<string> := ["variable", "filename", "property"]
  const GetTargetPropertyParams: seq<string> := ["variable", "target", "property"]
  const GetTestPropertyParams: seq<string> := ["test", "property", "variable"]
  const IncludeDirectoriesParams: seq<string> := ["directory1 directory2 ..."]
  const IncludeExternalMsProjectParams: seq<string> := ["project_name", "location", "dependency1 dependency2 ..."]
  const IncludeRegularExpressionParams: seq<string> := ["regex_match", "[regex_complain]"]
  const LinkDirectoriesParams: seq<string> := IncludeDirectoriesParams
  const MacroParams: seq<string> := FunctionParams
  const OptionParams: seq<string> := ["variable", "help_string", "[initial_value]"]
  const ProjectParams: seq<string> := ["project_name", "[language1 language2 ...]"]
  const SetParams: seq<string> := ["variable", "value"]
  const SourceGroupParams: seq<string> := ["name"]
  const TargetLinkLibrariesParams: seq<string> := ["target", "item1 item2 ..."]
  const VariableWatchParams: seq<string> := ["variable", "[command]"]
  const ExpressionParams: seq<string> := ["expression"]
  const OptionalExpressionParams: seq<string> := ["[expression]"]
  const VariableParams: seq<string> := ["variable"]
  const NoParams: seq<string> := []

  /** `_parameters`: the parameter list of a command, `None` for a command
      without an entry. */
  function ParametersOf(id: CommandId): Option<seq<string>>
  {
    match id
    case AddDependencies => Some(AddDependenciesParams)
    case AddExecutable => Some(AddExecutableParams)
    case AddLibrary => Some(AddExecutableParams)
    case AddSubdirectory => Some(AddSubdirectoryParams)
    case AddTest => Some(AddTestParams)
    case AuxSourceDirectory => Some(AuxSourceDirectoryParams)
    case Break => Some(NoParams)
    case BuildCommand => Some(VariableParams)
    case ConfigureFile => Some(ConfigureFileParams)
    case Else => Some(OptionalExpressionParams)
    case ElseIf => Some(ExpressionParams)
    case EnableLanguage => Some(EnableLanguageParams)
    case EnableTesting => Some(NoParams)
    case EndForEach => Some(OptionalExpressionParams)
    case EndFunction => Some(EndFunctionParams)
    case EndIf => Some(OptionalExpressionParams)
    case EndMacro => Some(EndMacroParams)
    case EndWhile => Some(OptionalExpressionParams)
    case FindFile => Some(FindFileParams)
    case FindPath => Some(FindPathParams)
    case FindProgram => Some(FindProgramParams)
    case FLTKWrapUi => Some(FltkWrapUiParams)
    case ForEach => Some(ForEachParams)
    case Function => Some(FunctionParams)
    case GetCMakeProperty => Some(GetCMakePropertyParams)
    case GetDirectoryProperty => Some(GetDirectoryPropertyParams)
    case GetFileNameComponent => Some(GetFileNameComponentParams)
    case GetSourceFileProperty => Some(GetSourceFilePropertyParams)
    case GetTargetProperty => Some(GetTargetPropertyParams)
    case GetTestProperty => Some(GetTestPropertyParams)
    case If => Some(ExpressionParams)
    case IncludeDirectories => Some(IncludeDirectoriesParams)
    case IncludeExternalMsProject => Some(IncludeExternalMsProjectParams)
    case IncludeRegularExpression => Some(IncludeRegularExpressionParams)
    case LinkDirectories => Some(LinkDirectoriesParams)
    case Macro => Some(MacroParams)
    case Option => Some(OptionParams)
    case Project => Some(ProjectParams)
    case Return => Some(NoParams)
    case Set => Some(SetParams)
    case SiteName => Some(VariableParams)
    case SourceGroup => Some(SourceGroupParams)
    case TargetLinkLibraries => Some(TargetLinkLibrariesParams)
    case Unset => Some(VariableParams)
    case VariableWatch => Some(VariableWatchParams)
    case While => Some(ExpressionParams)
    case _ => None
  }

  /** The methods object for a command without a subcommand. */
  datatype CommandMethods = CommandMethods(id: CommandId)
  {
    /** `GetCount`: one signature. */
    function GetCount(): int
    {
      1
    }

    function GetDescription(index: int): Option<string>
    {
      None
    }

    /** `GetName`: the command's name; `commandName` is `GetCommandFromId`. */
    function GetName(commandName: CommandId -> string, index: int): string
    {
      commandName(id)
    }

    /** `GetParameterCount`: indexes the table without a containment check,
        so the command must have an entry; it agrees with the static
        `GetParameterCount`. */
    function GetParameterCount(index: int): (r: int)
      requires ParametersOf(id).Some?
      ensures r == ParameterCountOf(id) && r >= 0
    {
      |ParametersOf(id).value|
    }

    /** `GetParameterInfo`: the parameter's name twice and no description.
        The table and the array are indexed unchecked. */
    function GetParameterInfo(index: int, parameter: int): (r: SubcommandMethods.ParameterInfo)
      requires ParametersOf(id).Some? && 0 <= parameter < |ParametersOf(id).value|
      ensures r.name == r.display == Some(ParametersOf(id).value[parameter])
      ensures r.description.None?
    {
      var p := ParametersOf(id).value[parameter];
      SubcommandMethods.ParameterInfo(Some(p), Some(p), None)
    }

    function GetType(index: int): Option<string>
    {
      None
    }

    /** Parameters are separated by spaces. */
    function Delimiter(): string
    {
      " "
    }
  }

  /** Whatever the command: one signature named after it, no description,
      no return type, and parameters separated by spaces. */
  lemma CommandMethodsConstants(m: CommandMethods, commandName: CommandId -> string, index: int)
    ensures m.GetCount() == 1 && m.GetDescription(index).None? && m.GetType(index).None?
    ensures m.GetName(commandName, index) == commandName(m.id)
    ensures m.Delimiter() == " "
  {
  }

  /** What `GetCommandParameters` returns: a methods object for a command
      or for one of its subcommands. */
  datatype MethodsObject =
    | Command(command: CommandMethods)
    | Subcommand(subcommand: SubcommandMethods.SubcommandMethods)

  /** `GetCommandParameters`: with a subcommand, the subcommand lookup
      decides; without one, a methods object exactly for the commands
      with an entry. */
  function GetCommandParameters(id: CommandId, subcommand: Option<string>): (r: Option<MethodsObject>)
    ensures subcommand.Some? ==>
      (r.None? <==> SubcommandMethods.FixedShape(id, subcommand.value).None?) &&
      (r.Some? ==> r.value == Subcommand(SubcommandMethods.SubcommandMethods(id, subcommand.value)))
    ensures subcommand.None? ==>
      (r.None? <==> ParametersOf(id).None?) &&
      (r.Some? ==> r.value == Command(CommandMethods(id)))
  {
    if subcommand.Some? then
      match SubcommandMethods.GetSubcommandParameters(id, subcommand.value)
      case None => None
      case Some(m) => Some(Subcommand(m))
    else if ParametersOf(id).None? then None
    else Some(Command(CommandMethods(id)))
  }

  /** The static `GetParameterCount`: the length of the command's list, 0
      for a command without an entry. */
  function ParameterCountOf(id: CommandId): (r: nat)
    ensures ParametersOf(id).None? ==> r == 0
    ensures ParametersOf(id).Some? ==> r == |ParametersOf(id).value|
  {
    match ParametersOf(id)
    case None => 0
    case Some(ps) => |ps|
  }

  /** `GetCommandQuickInfoTip`: the command's name followed by its
      parameters, space-separated, in parentheses; `None` for a command
      without an entry. */
  function GetCommandQuickInfoTip(commandName: CommandId -> string, id: CommandId): (r: Option<string>)
    ensures r.None? <==> ParametersOf(id).None?
    ensures r.Some? ==> r.value == commandName(id) + "(" + Join(" ", ParametersOf(id).value) + ")"
  {
    match ParametersOf(id)
    case None => None
    case Some(ps) => Some(commandName(id) + "(" + Join(" ", ps) + ")")
  }

  // ---------------------------------------------------------------------
  // Properties of the table
  // ---------------------------------------------------------------------

  /** `add_library` has the parameters of `add_executable`. */
  lemma AddLibraryLikeAddExecutable()
    ensures ParametersOf(AddLibrary) == ParametersOf(AddExecutable) == Some(["name", "source1 source2 ..."])
  {
  }

  /** `find_path` and `find_program` have the parameters of `find_file`. */
  lemma FindCommandsAlike()
    ensures ParametersOf(FindPath) == ParametersOf(FindFile)
    ensures ParametersOf(FindProgram) == ParametersOf(FindFile)
  {
  }

  /** `macro` and `endmacro` have the parameters of `function` and
      `endfunction`. */
  lemma MacroLikeFunction()
    ensures ParametersOf(Macro) == ParametersOf(Function)
    ensures ParametersOf(EndMacro) == ParametersOf(EndFunction)
  {
  }

  /** `break()`, `enable_testing()` and `return()` take no parameters, so
      their tip is the bare name with empty parentheses. */
  lemma NoParameterCommands(commandName: CommandId -> string, id: CommandId)
    requires id == Break || id == EnableTesting || id == Return
    ensures ParameterCountOf(id) == 0
    ensures GetCommandQuickInfoTip(commandName, id) == Some(commandName(id) + "()")
  {
    assert ParametersOf(id) == Some([]);
    var tip := commandName(id) + "(" + Join(" ", []) + ")";
    assert Join(" ", []) == "";
    assert tip == commandName(id) + "()";
  }

  /** The tip of `set` lists its two parameters separated by a space. */
  lemma SetQuickInfoTip(commandName: CommandId -> string, id: CommandId)
    requires id == Set
    ensures GetCommandQuickInfoTip(commandName, id) == Some(commandName(id) + "(variable value)")
  {
    assert ParametersOf(id) == Some(["variable", "value"]);
    assert Join(" ", ["variable", "value"]) == "variable value";
    var tip := commandName(id) + "(" + "variable value" + ")";
    assert tip == commandName(id) + "(variable value)";
  }
}
