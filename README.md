# CMake Tools editor service: a Dafny model

This project models the core of the CMake Tools editor extension. That
core is the part that works out, from the text being edited, what the
editor should offer. It covers:

- **Command recognition.** `CMakeKeywords.IsCommand` is a case-insensitive
  binary search over the sorted command table. `StringHelpers.ExtractToken`
  cuts a token out of a line.
- **The parses in `CMakeLanguageService`:**
  - `ParseForVariables` is a three-state machine that collects the
    variables a file defines with `set(`.
  - `ParseForTriggerCommandId` re-scans the lines up to the trigger and
    threads one scanner state through them.
  - `ParseForParameterInfo` tracks parentheses and emits the
    parameter-help events.
  - The plain-text test of `GetScanner` and the dispatch of `ParseSource`.
- **The signature registries.** `CMakeMethods` holds the parameter names
  of each command. `CMakeSubcommandMethods` holds the subcommand catalogs
  of eight commands, with the lookups and the quick-info tip built on them.
- **The variable catalog** of `CMakeVariableDeclarations` and its
  `IsStandardVariable` test.
- **The include-file list** of `CMakeIncludeDeclarations`.
- **`CMakeDeclarationsFactory`.** Two tables, one for an opening
  parenthesis and one for whitespace, choose a strategy. The strategy
  builds the list of candidates from the command and the parameters
  already typed.

The modules follow the source files:

| module | file |
|---|---|
| `Strings` | ordinal string order, ASCII case folding, binary search, insertion sort, `string.Join` |
| `Wrappers` | `Option` |
| `Keywords` | `CMakeKeywords.cs` and the command identifiers |
| `Tokens` | the scanner as an abstract collaborator |
| `StringHelpers` | `StringHelpers.cs` |
| `Paths` | `Path.GetFileName` and `Path.GetExtension` |
| `IncludeDeclarations` | `CMakeIncludeDeclarations.cs` |
| `VariableDeclarations` | `CMakeVariableDeclarations.cs` |
| `SubcommandMethods` | `CMakeSubcommandMethods.cs` |
| `Methods` | `CMakeMethods.cs` |
| `LanguageService` | `CMakeLanguageService.cs` |
| `DeclarationsFactory` | `CMakeDeclarationsFactory.cs` |
| `FactoryProperties` | lemmas about the factory's strategies |

Where the source changes state step by step, the model does too:

- The variable catalog is a class built by a loop.
- The three parses are methods with loops, proved equal to folds over the
  token sequence. The folds' properties are proved as lemmas.
- The factory's static constructor writes the subcommand strategy into the
  table in a loop.
- `CMakeItemDeclarations` is a class. Its fields are changed by `AddItems`,
  `AddItem` and `ExcludeItems`. Every strategy is a method that builds such
  an object. Each method is proved to produce the list a pure function
  describes.

The rest is functions over values.

## Model

| member | source | states |
|---|---|---|
| Strings.Lower | CMakeTools/CMakeKeywords.cs:105 | `ToLower` keeps the length and folds each character on its own |
| Strings.Upper | CMakeTools/CMakeVariableDeclarations.cs:305 | `ToUpper` keeps the length and folds each character on its own |
| Strings.LowerIdempotent | CMakeTools/CMakeKeywords.cs:105 | folding twice is folding once |
| Strings.UpperIdempotent | CMakeTools/CMakeVariableDeclarations.cs:305 | folding twice is folding once |
| Strings.BelowTotal | CMakeTools/CMakeVariableDeclarations.cs:258 | the ordinal order compares any two distinct strings |
| Strings.BelowTransitive | CMakeTools/CMakeVariableDeclarations.cs:258 | the order is transitive |
| Strings.BelowIrreflexive | CMakeTools/CMakeVariableDeclarations.cs:258 | no string is below itself |
| Strings.SearchRange | CMakeTools/CMakeKeywords.cs:105 | `Array.BinarySearch` on a range: an index found holds the key; a miss is reported by a complemented insertion point inside the range |
| Strings.BinarySearch | CMakeTools/CMakeKeywords.cs:105 | a non-negative result is an index of the key |
| Strings.SearchRangeComplete | CMakeTools/CMakeKeywords.cs:105 | on a strictly sorted array the search finds the key exactly when it occurs in the range |
| Strings.BinarySearchIsMembership | CMakeTools/CMakeKeywords.cs:105 | on a strictly sorted array the search is membership |
| Strings.SortSortsAndPermutes | CMakeTools/CMakeVariableDeclarations.cs:258 | `List.Sort` yields a sorted permutation of its input |
| Strings.JoinSnoc | CMakeTools/CMakeMethods.cs:384-385 | `string.Join` puts the separator only between elements |
| Keywords.KeywordsStrictlySorted | CMakeTools/CMakeKeywords.cs:15-96 | the command table is strictly ascending |
| Keywords.IsCommandIffListed | CMakeTools/CMakeKeywords.cs:103-107 | a token is a command exactly when its lower-case form is in the table |
| Keywords.IsCommandIgnoresCase | CMakeTools/CMakeKeywords.cs:103-107 | the test gives the same answer for a token and its lower-case form |
| Keywords.UnlistedPrefixIsNotCommand | CMakeTools/CMakeKeywords.cs:15-96 | a proper prefix of a command name that is not listed itself is not a command |
| Keywords.AddCustomIsNotCommand | CMakeTools/CMakeKeywords.cs:17-18 | `add_custom`, in any case, is not a command |
| Keywords.SetIsCommand | CMakeTools/CMakeKeywords.cs:103-107 | `set`, in any case, is a command |
| Tokens.TokenInfos | CMakeTools/CMakeLanguageService.cs:114 | the tokens of a scan are its steps' tokens in order |
| StringHelpers.ExtractToken | CMakeTools/StringHelpers.cs:28-32 | the token has `EndIndex - StartIndex + 1` characters, and character k is the line's character `StartIndex + k`; the span must lie in the line |
| StringHelpers.ExtractTokenSplits | CMakeTools/StringHelpers.cs:28-32 | the line is what precedes the token, the token, and what follows it |
| Paths.FileNameStart | CMakeTools/CMakeIncludeDeclarations.cs:35 | the file name starts after the last separator |
| Paths.ExtensionShape | CMakeTools/CMakeLanguageService.cs:75 | a non-empty extension is a dot and at least one more character, with no dot or separator after the dot, and it ends the path |
| IncludeDeclarations.FileNames | CMakeTools/CMakeIncludeDeclarations.cs:35 | one file name per listed path, in order |
| IncludeDeclarations.WithoutInstallScript | CMakeTools/CMakeIncludeDeclarations.cs:36 | `cmake_install.cmake` is never kept and the list does not grow |
| IncludeDeclarations.WithoutInstallScriptContents | CMakeTools/CMakeIncludeDeclarations.cs:36 | every other name is kept; the match is exact |
| IncludeDeclarations.WithoutInstallScriptConcat | CMakeTools/CMakeIncludeDeclarations.cs:34-37 | the filter works element by element, so the kept names stay in listing order |
| IncludeDeclarations.IncludeFilesContents | CMakeTools/CMakeIncludeDeclarations.cs:28-38 | a name is offered exactly when it is the file name of a listed path and not the install script |
| IncludeDeclarations.Create | CMakeTools/CMakeIncludeDeclarations.cs:28-38 | the list never holds the install script and has no more entries than the listing |
| IncludeDeclarations.IncludeDeclarations.GetCount | CMakeTools/CMakeIncludeDeclarations.cs:40-43 | the number of names |
| IncludeDeclarations.IncludeDeclarations.GetName | CMakeTools/CMakeIncludeDeclarations.cs:61-68 | none outside `[0, count)`, the name at the index inside it |
| IncludeDeclarations.IncludeDeclarations.GetDisplayText | CMakeTools/CMakeIncludeDeclarations.cs:50-53 | the same as `GetName` |
| VariableDeclarations.TableSizes | CMakeTools/CMakeVariableDeclarations.cs:26-234 | 141 standard names, 29 language templates, 25 environment names |
| VariableDeclarations.FormatOnePlaceholder | CMakeTools/CMakeVariableDeclarations.cs:250-251 | `string.Format` puts the language in place of `{0}` |
| VariableDeclarations.FormatNoPlaceholder | CMakeTools/CMakeVariableDeclarations.cs:250-251 | a template without a placeholder is left as it is |
| VariableDeclarations.FormatAll | CMakeTools/CMakeVariableDeclarations.cs:250-251 | each template instantiated with the language, in template order |
| VariableDeclarations.FormatForEachCount | CMakeTools/CMakeVariableDeclarations.cs:248-252 | templates times languages entries |
| VariableDeclarations.FormatForEachContents | CMakeTools/CMakeVariableDeclarations.cs:248-252 | a name is added exactly when it is a template instantiated with one of the languages |
| VariableDeclarations.AppendLanguageVariables | CMakeTools/CMakeVariableDeclarations.cs:248-252 | the loop appends each language's instances in turn |
| VariableDeclarations.VariableDeclarations.constructor | CMakeTools/CMakeVariableDeclarations.cs:239-259 | the list is the base list, then the language instances, then the user variables, sorted |
| VariableDeclarations.CatalogSorted | CMakeTools/CMakeVariableDeclarations.cs:258 | after construction the list is sorted |
| VariableDeclarations.CatalogPermutesParts | CMakeTools/CMakeVariableDeclarations.cs:241-258 | the list holds the three parts with their repetitions; a missing user list adds nothing |
| VariableDeclarations.CatalogCount | CMakeTools/CMakeVariableDeclarations.cs:241-258 | base count + 29 per language + user variables; duplicates stay |
| VariableDeclarations.CatalogContents | CMakeTools/CMakeVariableDeclarations.cs:241-258 | a name is listed exactly when it is a base name, a language instance or a user variable |
| VariableDeclarations.VariableDeclarations.GetCount | CMakeTools/CMakeVariableDeclarations.cs:261-264 | the number of entries |
| VariableDeclarations.VariableDeclarations.GetName | CMakeTools/CMakeVariableDeclarations.cs:282-289 | none outside `[0, count)`, the entry at the index inside it |
| VariableDeclarations.VariableDeclarations.GetDisplayText | CMakeTools/CMakeVariableDeclarations.cs:271-274 | the same as `GetName` |
| VariableDeclarations.IsStandardVariableIgnoresCase | CMakeTools/CMakeVariableDeclarations.cs:302-306 | the test gives the same answer for a name and its upper-case form |
| VariableDeclarations.AsWrittenFindsOnlyStandard | CMakeTools/CMakeVariableDeclarations.cs:302-306 | what the search as written finds is a standard name; it errs only by missing |
| VariableDeclarations.ListsNotSorted | CMakeTools/CMakeVariableDeclarations.cs:60-61 | neither the standard list nor the environment list is strictly sorted |
| VariableDeclarations.DebugPostfixMissed | CMakeTools/CMakeVariableDeclarations.cs:302-306 | `CMAKE_DEBUG_POSTFIX` is standard, but the search as written says otherwise |
| VariableDeclarations.CommonProgramFilesMissed | CMakeTools/CMakeVariableDeclarations.cs:302-306 | `COMMONPROGRAMFILES` is a standard environment name, but the search as written says otherwise |
| SubcommandMethods.IndexOf | CMakeTools/CMakeDeclarationsFactory.cs:253 | `FindIndex`: the first position of the key, -1 exactly when it is absent |
| SubcommandMethods.Lookup | CMakeTools/CMakeSubcommandMethods.cs:517-519 | a key is found exactly when it is listed, and what is found is one of the shapes |
| SubcommandMethods.LookupEntry | CMakeTools/CMakeSubcommandMethods.cs:517-519 | in a catalog with distinct keys, looking a key up finds its own shape |
| SubcommandMethods.HasSubcommandsExactly | CMakeTools/CMakeSubcommandMethods.cs:400-411 | exactly cmake_policy, define_property, export, file, install, list, set_property and string take subcommands |
| SubcommandMethods.GetSubcommands | CMakeTools/CMakeSubcommandMethods.cs:531-538 | none for a command without subcommands, else the catalog's keys |
| SubcommandMethods.FixedShape | CMakeTools/CMakeSubcommandMethods.cs:444-446 | a shape exactly when the command has a catalog, the subcommand is a key and its entry is not `null` |
| SubcommandMethods.SubcommandMethods.GetName | CMakeTools/CMakeSubcommandMethods.cs:435-439 | command name, `(`, subcommand |
| SubcommandMethods.SubcommandMethods.GetParameterCount | CMakeTools/CMakeSubcommandMethods.cs:441-451 | 0 when there is no shape, else its length |
| SubcommandMethods.SubcommandMethods.GetParameterInfo | CMakeTools/CMakeSubcommandMethods.cs:453-469 | name and display are the entry and there is no description; all three are none without a shape |
| SubcommandMethods.SubcommandMethodsConstants | CMakeTools/CMakeSubcommandMethods.cs:424-494 | one signature, no description or type, spaces as delimiter and open bracket |
| SubcommandMethods.GetSubcommandParameters | CMakeTools/CMakeSubcommandMethods.cs:514-524 | a methods object exactly when the subcommand has a fixed shape |
| SubcommandMethods.GetMemberSelectionTriggers | CMakeTools/CMakeSubcommandMethods.cs:545-548 | the triggers are exactly the commands with subcommands |
| SubcommandMethods.FileKeysAscending | CMakeTools/CMakeSubcommandMethods.cs:176-200 | the file subcommands are listed in ascending order, so they are distinct |
| SubcommandMethods.CMakePolicyKeysAscending | CMakeTools/CMakeSubcommandMethods.cs:45-53 | the keys are ascending |
| SubcommandMethods.DefinePropertyKeysAscending | CMakeTools/CMakeSubcommandMethods.cs:56-66 | the keys are ascending |
| SubcommandMethods.ExportKeysAscending | CMakeTools/CMakeSubcommandMethods.cs:75-80 | the keys are ascending |
| SubcommandMethods.InstallKeysAscending | CMakeTools/CMakeSubcommandMethods.cs:203-213 | the keys are ascending |
| SubcommandMethods.ListKeysAscending | CMakeTools/CMakeSubcommandMethods.cs:280-293 | the keys are ascending |
| SubcommandMethods.SetPropertyKeysAscending | CMakeTools/CMakeSubcommandMethods.cs:296-305 | the keys are ascending |
| SubcommandMethods.StringKeysAscending | CMakeTools/CMakeSubcommandMethods.cs:377-397 | the keys are ascending |
| SubcommandMethods.CatalogsWellFormed | CMakeTools/CMakeSubcommandMethods.cs:400-411 | every catalog has one shape per key and distinct keys |
| SubcommandMethods.CatalogEntryFound | CMakeTools/CMakeSubcommandMethods.cs:514-524 | each listed subcommand gets its own entry's shape, and parameters exactly when that entry is not `null` |
| SubcommandMethods.FileSubcommandNames | CMakeTools/CMakeSubcommandMethods.cs:176-200 | the 21 file subcommands, in order |
| SubcommandMethods.FileGlobShapes | CMakeTools/CMakeSubcommandMethods.cs:96-104 | GLOB_RECURSE has GLOB's shape |
| SubcommandMethods.FileReadShapes | CMakeTools/CMakeSubcommandMethods.cs:112-153 | MD5, the SHA hashes and STRINGS have READ's shape |
| SubcommandMethods.FileWriteShape | CMakeTools/CMakeSubcommandMethods.cs:83-173 | WRITE has APPEND's shape |
| SubcommandMethods.PolicyStackShapes | CMakeTools/CMakeSubcommandMethods.cs:27-29 | cmake_policy PUSH and POP take no parameters |
| SubcommandMethods.OpenShapes | CMakeTools/CMakeSubcommandMethods.cs:56-66 | install, define_property and set_property subcommands have no fixed shape |
| SubcommandMethods.RegexAndTargetsOpen | CMakeTools/CMakeSubcommandMethods.cs:79 | string REGEX and export TARGETS have no fixed shape |
| SubcommandMethods.LookupIsCaseSensitive | CMakeTools/CMakeSubcommandMethods.cs:517-519 | `glob` in lower case is not a file subcommand |
| Methods.CommandMethods.GetParameterCount | CMakeTools/CMakeMethods.cs:308-312 | the length of the command's entry, the same as the static count |
| Methods.CommandMethods.GetParameterInfo | CMakeTools/CMakeMethods.cs:314-321 | name and display are the parameter, no description; the parameter must be in range |
| Methods.CommandMethodsConstants | CMakeTools/CMakeMethods.cs:291-336 | one signature named after the command, no description or type, spaces between parameters |
| Methods.GetCommandParameters | CMakeTools/CMakeMethods.cs:346-357 | with a subcommand, the subcommand lookup decides; without one, a methods object exactly for the commands with an entry |
| Methods.ParameterCountOf | CMakeTools/CMakeMethods.cs:364-371 | 0 without an entry, else the entry's length |
| Methods.GetCommandQuickInfoTip | CMakeTools/CMakeMethods.cs:378-386 | none without an entry, else name, `(`, parameters joined by spaces, `)` |
| Methods.AddLibraryLikeAddExecutable | CMakeTools/CMakeMethods.cs:235-236 | add_library shares add_executable's parameters |
| Methods.FindCommandsAlike | CMakeTools/CMakeMethods.cs:76-84 | find_path and find_program share find_file's parameters |
| Methods.MacroLikeFunction | CMakeTools/CMakeMethods.cs:173-174 | macro shares function's parameters, and endmacro shares endfunction's (line 73) |
| Methods.NoParameterCommands | CMakeTools/CMakeMethods.cs:240-272 | break, enable_testing and return take no parameters, and their tip is `name()` |
| Methods.SetQuickInfoTip | CMakeTools/CMakeMethods.cs:192-196 | the tip of set |
| LanguageService.FindIndexIgnoringCase | CMakeTools/CMakeLanguageService.cs:132 | `FindIndex` with upper-cased comparison: a found position matches ignoring case; -1 exactly when none does |
| LanguageService.ParseForVariables | CMakeTools/CMakeLanguageService.cs:100-143 | the loop computes the machine's variables over the scanned tokens, with the intended standard-name test |
| LanguageService.SetDefinitionRun | CMakeTools/CMakeLanguageService.cs:114-138 | after `set` `(` an identifier is recorded exactly when the standard-name test rejects it |
| LanguageService.DebugPostfixRecordedAsWritten | CMakeTools/CMakeLanguageService.cs:131 | for `set(CMAKE_DEBUG_POSTFIX` the intended test records nothing while the search as written records the standard name as a user variable |
| LanguageService.RunVariablesKeepsUserVariables | CMakeTools/CMakeLanguageService.cs:131-134 | no standard name, and no two names equal ignoring case; the state stays in 0..2 |
| LanguageService.StepAppends | CMakeTools/CMakeLanguageService.cs:134 | a token adds at most its own text, at the end |
| LanguageService.VariablesStateMeaning | CMakeTools/CMakeLanguageService.cs:116-140 | state 1 exactly after a `set` keyword; state 2 exactly after `set` and `(` |
| LanguageService.VariablesAppendOnly | CMakeTools/CMakeLanguageService.cs:134 | names are only appended, so they stay in order of first definition |
| LanguageService.KeptOnlyAfterSet | CMakeTools/CMakeLanguageService.cs:116-136 | every name recorded is an identifier right after `set` and `(` |
| LanguageService.IdentifierKept | CMakeTools/CMakeLanguageService.cs:126-136 | an unlisted non-standard identifier in state 2 is there afterwards, ignoring case |
| LanguageService.KeptIfDefined | CMakeTools/CMakeLanguageService.cs:116-136 | every non-standard name defined by `set(` ends up in the result, ignoring case |
| LanguageService.FirstStartingAt | CMakeTools/CMakeLanguageService.cs:157-165 | the first token on the line that starts at the trigger's position |
| LanguageService.ParseForTriggerCommandId | CMakeTools/CMakeLanguageService.cs:145-169 | the loop returns the last command of the state right after the trigger's token, or unspecified |
| LanguageService.TriggerIgnoresLaterLines | CMakeTools/CMakeLanguageService.cs:153 | the lines after the request line play no part |
| LanguageService.TokenSpan | CMakeTools/CMakeLanguageService.cs:199-202 | a span on the request line covering the token |
| LanguageService.ParseForParameterInfo | CMakeTools/CMakeLanguageService.cs:171-263 | the loop emits the events and returns the command text of the fold over the request line |
| LanguageService.RunParametersInvariant | CMakeTools/CMakeLanguageService.cs:240-256 | the depth never goes negative, and inside a command it is at least 1 |
| LanguageService.RunParametersFollowsProtocol | CMakeTools/CMakeLanguageService.cs:208-256 | StartName and StartParameters come as a pair, NextParameter and EndParameters only while the parameters are open, and they are open exactly when the parse is inside a command |
| LanguageService.EventsOnRequestLine | CMakeTools/CMakeLanguageService.cs:213-252 | every event span lies on the request line, and every StartName has a name |
| LanguageService.CommandTextIsLastTopKeyword | CMakeTools/CMakeLanguageService.cs:195-205 | the result is the lower-case text of the last keyword outside parentheses, none when there was none |
| LanguageService.NextParameterSpanAsWrittenSpansLines | CMakeTools/CMakeLanguageService.cs:231-236 | the span as written starts on line 0 and ends on the request line |
| LanguageService.CMakeListsHasTxtExtension | CMakeTools/CMakeLanguageService.cs:79-81 | a file named `CMakeLists.txt`, in any case, has the `.txt` extension |
| LanguageService.IsPlainTextExactly | CMakeTools/CMakeLanguageService.cs:73-86 | plain text unless the extension is `.cmake` or the name is `cmakelists.txt`, ignoring case |
| LanguageService.ParseSource | CMakeTools/CMakeLanguageService.cs:32-64 | after `$`, the variables of the text; after `(`, the subcommands of the trigger's command; for parameter help, the command's parameters and the events; otherwise an empty scope |
| DeclarationsFactory.ItemsOf | CMakeTools/CMakeDeclarationsFactory.cs:143 | one item per text, in order, of the given type |
| DeclarationsFactory.Exclude | CMakeTools/CMakeDeclarationsFactory.cs:144 | the items kept are exactly those whose text is not excluded, and there are no more of them |
| DeclarationsFactory.ExcludeConcat | CMakeTools/CMakeDeclarationsFactory.cs:144 | the exclusion distributes over concatenation, so the kept items stay in order |
| DeclarationsFactory.SkipFirst | CMakeTools/CMakeDeclarationsFactory.cs:188 | all parameters but the first |
| DeclarationsFactory.ItemDeclarations.AddItems | CMakeTools/CMakeDeclarationsFactory.cs:143 | one item per text is appended, in order; the kind is unchanged |
| DeclarationsFactory.ItemDeclarations.AddItem | CMakeTools/CMakeDeclarationsFactory.cs:210-211 | exactly one item is appended; the kind is unchanged |
| DeclarationsFactory.ItemDeclarations.ExcludeItems | CMakeTools/CMakeDeclarationsFactory.cs:144 | the items, in order, without those whose text is excluded; the kind is unchanged |
| DeclarationsFactory.StaticConstructor | CMakeTools/CMakeDeclarationsFactory.cs:98-107 | the loop gives every trigger the subcommand strategy |
| DeclarationsFactory.WithTriggersShape | CMakeTools/CMakeDeclarationsFactory.cs:103-106 | the written entries are the triggers; the other entries are unchanged |
| DeclarationsFactory.ParenMethodsShape | CMakeTools/CMakeDeclarationsFactory.cs:29-43 | after the static constructor the table holds the eleven listed entries unchanged and the subcommand strategy for every command with subcommands |
| DeclarationsFactory.ExplicitHaveNoSubcommands | CMakeTools/CMakeDeclarationsFactory.cs:29-43 | no command listed in `_methods` takes subcommands, so the static constructor overwrites none of the listed entries |
| DeclarationsFactory.WsHaveNoSubcommands | CMakeTools/CMakeDeclarationsFactory.cs:47-63 | no command listed in `_wsMethods` takes subcommands |
| DeclarationsFactory.TablesHaveNoSourceList | CMakeTools/CMakeDeclarationsFactory.cs:29-43 | add_executable and add_library are not in `_methods`, so the source list, which skips the first prior parameter, is only reached after whitespace |
| DeclarationsFactory.GetMemberSelectionTriggers | CMakeTools/CMakeDeclarationsFactory.cs:373-376 | the parenthesis triggers are the listed commands and the commands with subcommands |
| DeclarationsFactory.GetWSMemberSelectionTriggers | CMakeTools/CMakeDeclarationsFactory.cs:382-385 | the whitespace triggers are the thirteen listed commands; target_link_libraries and the commands with subcommands are not among them |
| DeclarationsFactory.SubcommandDecls | CMakeTools/CMakeDeclarationsFactory.cs:159-172 | none exactly when the command has no subcommands, else its subcommands as commands |
| DeclarationsFactory.ObjectDecls | CMakeTools/CMakeDeclarationsFactory.cs:67-74 | an object list exactly for the directory, source, target and test types |
| DeclarationsFactory.CreateDecls | CMakeTools/CMakeDeclarationsFactory.cs:357-367 | a command absent from the chosen table gets nothing |
| DeclarationsFactory.CreateIncludeDeclarations | CMakeTools/CMakeDeclarationsFactory.cs:109-113 | a fresh, empty include-file list for the edited file |
| DeclarationsFactory.CreatePackageDeclarations | CMakeTools/CMakeDeclarationsFactory.cs:115-119 | a fresh, empty package list for the edited file |
| DeclarationsFactory.CreateSubdirectoryDeclarations | CMakeTools/CMakeDeclarationsFactory.cs:121-129 | a fresh, empty subdirectory list for the edited file and the `CMakeLists.txt` option |
| DeclarationsFactory.CreateLanguageDeclarations | CMakeTools/CMakeDeclarationsFactory.cs:131-136 | a fresh, empty language list for the edited file |
| DeclarationsFactory.CreateTargetDeclarations | CMakeTools/CMakeDeclarationsFactory.cs:138-146 | a fresh item list of the file's targets less the prior parameters (`TargetDecls`) |
| DeclarationsFactory.CreateTestDeclarations | CMakeTools/CMakeDeclarationsFactory.cs:148-157 | a fresh item list of the file's tests less the prior parameters (`TargetDecls`) |
| DeclarationsFactory.CreateSubcommandDeclarations | CMakeTools/CMakeDeclarationsFactory.cs:159-172 | none exactly when the command has no subcommands, else a fresh list of its subcommands (`SubcommandDecls`) |
| DeclarationsFactory.CreateSourceDeclarations | CMakeTools/CMakeDeclarationsFactory.cs:174-191 | a fresh source list: the files, the command's keywords, and for add_executable and add_library without the prior parameters after the first (`SourceDecls`) |
| DeclarationsFactory.CreateGetXPropertyDeclarations | CMakeTools/CMakeDeclarationsFactory.cs:193-244 | the object `GetXPropertyDecls` describes, none where it describes none |
| DeclarationsFactory.CreateSetXPropertyDeclarations | CMakeTools/CMakeDeclarationsFactory.cs:246-295 | after the first `PROPERTIES`, the properties or none by `SetXAfterKeyword`; before it, the objects and the keyword by `SetXObjects` |
| DeclarationsFactory.CreatePropertyObjects | CMakeTools/CMakeDeclarationsFactory.cs:271-292 | a fresh object holding the objects of the command's type, then `PROPERTIES` when a parameter was typed or for the two commands that take none before it |
| DeclarationsFactory.CreateGetPropertyDeclarations | CMakeTools/CMakeDeclarationsFactory.cs:297-344 | the object `GetPropertyDecls` describes, none where it describes none |
| DeclarationsFactory.CreateDeclarations | CMakeTools/CMakeDeclarationsFactory.cs:357-367 | the object `CreateDecls` describes: the entry of `_methods` after `(`, of `_wsMethods` after whitespace, none for a command without one |
| FactoryProperties.InItemsOf | CMakeTools/CMakeDeclarationsFactory.cs:143 | an item is listed exactly when it has the type and its text is one of the texts |
| FactoryProperties.TargetListExcludesPriors | CMakeTools/CMakeDeclarationsFactory.cs:138-157 | the file's target (test) names not among the prior parameters, and only those |
| FactoryProperties.SourceListShape | CMakeTools/CMakeDeclarationsFactory.cs:174-191 | the files and the command's keywords; for add_executable and add_library less every prior parameter but the first |
| FactoryProperties.ObjectsLackPropertyKeywords | CMakeTools/CMakeDeclarationsFactory.cs:67-96 | an object list never holds `PROPERTIES` or `PROPERTY` as a keyword |
| FactoryProperties.SetXAfterProperties | CMakeTools/CMakeDeclarationsFactory.cs:250-269 | after the first `PROPERTIES` at i, properties exactly when `count - i` is odd and the command has properties |
| FactoryProperties.SetXBeforeProperties | CMakeTools/CMakeDeclarationsFactory.cs:271-293 | without `PROPERTIES`, the objects followed by the keyword exactly when a parameter was typed or the command is set_source_files_properties or set_directory_properties |
| FactoryProperties.GetXPropertyCases | CMakeTools/CMakeDeclarationsFactory.cs:193-244 | properties (with `DIRECTORY` only for get_directory_property) at the property slot, objects at the object slot, then only the `DIRECTORY` positions of get_directory_property |
| FactoryProperties.GetPropertyCases | CMakeTools/CMakeDeclarationsFactory.cs:297-344 | none before a parameter; the scope keywords at 1; the objects and `PROPERTY` exactly when no object is required at 2; only `PROPERTY` at 3; the scope's properties after `PROPERTY` |
| FactoryProperties.SubcommandsAfterParen | CMakeTools/CMakeDeclarationsFactory.cs:98-107 | after `(`, a command with subcommands gets exactly its subcommands |
| FactoryProperties.ExplicitStrategies | CMakeTools/CMakeDeclarationsFactory.cs:29-43 | of the listed entries only get_test_property uses the property registry |
| FactoryProperties.ParenTriggerOffersList | CMakeTools/CMakeDeclarationsFactory.cs:29-43 | after `(`, every command of the table but get_test_property gets a list |
| FactoryProperties.DependenciesExcludeListed | CMakeTools/CMakeDeclarationsFactory.cs:52 | after whitespace, add_dependencies lists the file's targets not yet typed |

## Left out

- The scanner (`CMakeScanner`) is not part of this model. It is a
  parameter: a function from a line and a start state to the token steps
  and the end state, plus `InsideParens` and `GetLastCommand`.
- `CMakeProperties`, `CMakeParsing.ParseForTargetNames`, the specialised
  declaration classes (include files, packages, subdirectories, languages,
  source files) and `CMakeSubcommandDeclarations` are not part of this
  model. The factory takes the first two as parameters. The others appear
  as the kind of list they would build.
- `CMakeKeywords.GetCommandId` and `GetCommandFromId` are called but do not
  exist in `CMakeKeywords.cs`. They are parameters.
- The host side is left out: the text buffer (given as a sequence of
  lines), the file system (the directory listing and the language list are
  inputs), the option page (`requireCMakeLists` is an input), the sink
  (modelled as a list of events), preferences, glyphs and description
  strings.
- String comparison is ordinal and case folding is ASCII. The .NET
  culture-aware `Sort`, `BinarySearch`, `ToLower` and `ToUpper` can order
  `_` and non-ASCII letters differently.
- Both trigger collections are sets. The order of dictionary keys is not
  modelled.
- `ParseSource` calls a one-argument `GetCommandParameters`, but
  `CMakeMethods.cs` takes two. The model calls it with no subcommand.
- DeclarationsFactory.ItemDeclarations.ExcludeItems: a missing exclusion
  list excludes nothing. The class is not shown. This affects the target
  strategy after `(`, where the prior parameters are `null`.
- DeclarationsFactory.CreateSourceDeclarations requires prior parameters
  for add_executable and add_library, because `Skip(1)` of `null` throws.
  Both commands reach this strategy only from the whitespace table, where
  the parameters are present.
- LanguageService.ParseForTriggerCommandId and
  LanguageService.ParseForParameterInfo require the request line to exist,
  as `Source.GetLine` does.
- LanguageService.ParseForVariables, LanguageService.ParseForParameterInfo
  and LanguageService.ParseSource require the scanned tokens to lie inside
  the scanned text or line, as `Substring` does.
- LanguageService.ParseForParameterInfo and LanguageService.ParseSource emit
  the intended `NextParameter` span, which starts on the request line
  (second Findings row). On a request line other than line 0 the source's
  span starts on line 0 instead, at the token's start index, and ends on
  the request line at the token's end index
  (LanguageService.NextParameterSpanAsWritten).
- LanguageService.ParseForVariables uses the intended standard-name test
  `IsStandardVariable`, not the binary search as written (first Findings
  row). The two differ on the names the search misses: for
  `set(CMAKE_DEBUG_POSTFIX` the source records `CMAKE_DEBUG_POSTFIX` as a
  user variable and `ParseSource`'s `$` catalog lists it twice, while the
  model records nothing and lists it once
  (LanguageService.DebugPostfixRecordedAsWritten).

## Findings

| source | as written | input that shows it | evidently intended | confidence | as-written member | corrected member |
|---|---|---|---|---|---|---|
| CMakeTools/CMakeVariableDeclarations.cs:302-306 | `Array.BinarySearch` over the standard and environment lists, which are not sorted | `IsStandardVariable("CMAKE_DEBUG_POSTFIX")` and `IsStandardVariable("COMMONPROGRAMFILES", true)` are false | membership of the upper-cased name in the list | high, not executed | VariableDeclarations.IsStandardVariableAsWritten (VariableDeclarations.DebugPostfixMissed, VariableDeclarations.CommonProgramFilesMissed, LanguageService.DebugPostfixRecordedAsWritten) | VariableDeclarations.IsStandardVariable (used by LanguageService.ParseForVariables and LanguageService.ParseSource) |
| CMakeTools/CMakeLanguageService.cs:232-233 | the NextParameter span sets `iStartIndex` twice and never sets `iStartLine` | any parameter help on a line other than line 0; the span starts on line 0 and ends on the request line | the span starts on the request line, like the other spans | high, not executed | LanguageService.NextParameterSpanAsWritten (LanguageService.NextParameterSpanAsWrittenSpansLines) | LanguageService.TokenSpan (LanguageService.EventsOnRequestLine; used by LanguageService.ParseForParameterInfo and LanguageService.ParseSource) |
