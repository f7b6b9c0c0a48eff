/** `CMakeVariableDeclarations`: the completion list offered after `${`,
    made of the standard CMake variables (or the standard environment
    variables), the per-language variables of every language CMake's
    modules know, and the variables the user's own file sets; and the test
    of whether a name is a standard variable. */
module VariableDeclarations {
  import opened Wrappers
  import opened Strings

  // CMakeTools/CMakeVariableDeclarations.cs, lines 28-49.
  const StandardVariables1: seq<string> := [
    "APPLE", "BORLAND",
    "BUILD_SHARED_LIBS", "CMAKE_AR",
    "CMAKE_ARCHIVE_OUTPUT_DIRECTORY", "CMAKE_ARGC",
    "CMAKE_ARGV0", "CMAKE_AUTOMOC",
    "CMAKE_AUTOMOC_MOC_OPTIONS", "CMAKE_AUTOMOC_RELAXED_MODE",
    "CMAKE_BACKWARDS_COMPATIBILITY", "CMAKE_BINARY_DIR",
    "CMAKE_BUILD_TOOL", "CMAKE_BUILD_TYPE",
    "CMAKE_BUILD_WITH_INSTALL_RPATH", "CMAKE_CACHE_MAJOR_VERSION",
    "CMAKE_CACHE_MINOR_VERSION", "CMAKE_CACHE_PATCH_VERSION",
    "CMAKE_CACHEFILE_DIR", "CMAKE_CFG_INTDIR",
    "CMAKE_CL_64", "CMAKE_COLOR_MAKEFILE"
  ]

  // CMakeTools/CMakeVariableDeclarations.cs, lines 50-69.
  const StandardVariables2: seq<string> := [
    "CMAKE_COMMAND", "CMAKE_COMPILER_2005",
    "CMAKE_CONFIGURATION_TYPES", "CMAKE_CROSSCOMPILING",
    "CMAKE_CTEST_COMMAND", "CMAKE_CURRENT_BINARY_DIR",
    "CMAKE_CURRENT_LIST_DIR", "CMAKE_CURRENT_LIST_FILE",
    "CMAKE_CURRENT_LIST_LINE", "CMAKE_CURRENT_SOURCE_DIR",
    "CMAKE_DL_LIBS", "CMAKE_DEBUG_POSTFIX",
    "CMAKE_EDIT_COMMAND", "CMAKE_EXE_LINKER_FLAGS",
    "CMAKE_EXECUTABLE_SUFFIX", "CMAKE_EXTRA_GENERATOR",
    "CMAKE_EXTRA_SHARED_LIBRARY_SUFFIXES", "CMAKE_FIND_LIBRARY_PREFIXES",
    "CMAKE_FIND_LIBRARY_SUFFIXES", "CMAKE_FIND_PACKAGE_WARN_NO_MODULE"
  ]

  // CMakeTools/CMakeVariableDeclarations.cs, lines 70-91.
  const StandardVariables3: seq<string> := [
    "CMAKE_GENERATOR", "CMAKE_HOME_DIRECTORY",
    "CMAKE_HOST_APPLE", "CMAKE_HOST_SYSTEM",
    "CMAKE_HOST_SYSTEM_NAME", "CMAKE_HOST_SYSTEM_PROCESSOR",
    "CMAKE_HOST_SYSTEM_VERSION", "CMAKE_HOST_UNIX",
    "CMAKE_HOST_WIN32", "CMAKE_IGNORE_PATH",
    "CMAKE_IMPORT_LIBRARY_PREFIX", "CMAKE_IMPORT_LIBRARY_SUFFIX",
    "CMAKE_INCLUDE_CURRENT_DIR", "CMAKE_INCLUDE_PATH",
    "CMAKE_INSTALL_DEFAULT_COMPONENT_NAME", "CMAKE_INSTALL_NAME_DIR",
    "CMAKE_INSTALL_PREFIX", "CMAKE_INSTALL_RPATH",
    "CMAKE_INSTALL_RPATH_USE_LINK_PATH", "CMAKE_INTERNAL_PLATFORM_ABI",
    "CMAKE_LIBRARY_ARCHITECTURE", "CMAKE_LIBRARY_ARCHITECTURE_REGEX"
  ]

  // CMakeTools/CMakeVariableDeclarations.cs, lines 92-113.
  const StandardVariables4: seq<string> := [
    "CMAKE_LIBRARY_OUTPUT_DIRECTORY", "CMAKE_LIBRARY_PATH",
    "CMAKE_LIBRARY_PATH_FLAG", "CMAKE_LINK_DEF_FILE_FLAG",
    "CMAKE_LINK_INTERFACE_LIBRARIES", "CMAKE_LINK_LIBRARY_FILE_FLAG",
    "CMAKE_LINK_LIBRARY_FLAG", "CMAKE_LINK_LIBRARY_SUFFIX",
    "CMAKE_MACOSX_BUNDLE", "CMAKE_MAJOR_VERSION",
    "CMAKE_MAKE_PROGRAM", "CMAKE_MFC_FLAG",
    "CMAKE_MINOR_VERSION", "CMAKE_MODULE_PATH",
    "CMAKE_NO_BUILTIN_CHRPATH", "CMAKE_NOT_USING_CONFIG_FLAGS",
    "CMAKE_OBJECT_PATH_MAX", "CMAKE_PARENT_LIST_FILE",
    "CMAKE_PATCH_VERSION", "CMAKE_PDB_OUTPUT_DIRECTORY",
    "CMAKE_POSITION_INDEPENDENT_CODE", "CMAKE_PREFIX_PATH"
  ]

  // CMakeTools/CMakeVariableDeclarations.cs, lines 114-135.
  const StandardVariables5: seq<string> := [
    "CMAKE_PROGRAM_PATH", "CMAKE_PROJECT_NAME",
    "CMAKE_RANLIB", "CMAKE_ROOT",
    "CMAKE_RUNTIME_OUTPUT_DIRECTORY", "CMAKE_SCRIPT_MODE_FILE",
    "CMAKE_SHARED_LIBRARY_PREFIX", "CMAKE_SHARED_LIBRARY_SUFFIX",
    "CMAKE_SHARED_MODULE_PREFIX", "CMAKE_SHARED_MODULE_SUFFIX",
    "CMAKE_SIZEOF_VOID_P", "CMAKE_SKIP_BUILD_RPATH",
    "CMAKE_SKIP_INSTALL_ALL_DEPENDENCY", "CMAKE_SKIP_RPATH",
    "CMAKE_SOURCE_DIR", "CMAKE_STANDARD_LIBRARIES",
    "CMAKE_STATIC_LIBRARY_PREFIX", "CMAKE_STATIC_LIBRARY_SUFFIX",
    "CMAKE_SYSTEM", "CMAKE_SYSTEM_IGNORE_PATH",
    "CMAKE_SYSTEM_INCLUDE_PATH", "CMAKE_SYSTEM_LIBRARY_PATH"
  ]

  // CMakeTools/CMakeVariableDeclarations.cs, lines 136-157.
  const StandardVariables6: seq<string> := [
    "CMAKE_SYSTEM_NAME", "CMAKE_SYSTEM_PREFIX_PATH",
    "CMAKE_SYSTEM_PROCESSOR", "CMAKE_SYSTEM_PROGRAM_PATH",
    "CMAKE_SYSTEM_VERSION", "CMAKE_TRY_COMPILE_CONFIGURATION",
    "CMAKE_TWEAK_VERSION", "CMAKE_USE_RELATIVE_PATHS",
    "CMAKE_USER_MAKE_RULES_OVERRIDE", "CMAKE_USING_VC_FREE_TOOLS",
    "CMAKE_VERBOSE_MAKEFILE", "CMAKE_VERSION",
    "CMAKE_VS_PLATFORM_TOOLSET", "CMAKE_WIN32_EXECUTABLE",
    "CYGWIN", "EXECUTABLE_OUTPUT_PATH",
    "LIBRARY_OUTPUT_PATH", "MSVC",
    "MSVC10", "MSVC11",
    "MSVC60", "MSVC70"
  ]

  // CMakeTools/CMakeVariableDeclarations.cs, lines 158-168.
  const StandardVariables7: seq<string> := [
    "MSVC71", "MSVC80",
    "MSVC90", "MSVC_IDE",
    "MSVC_VERSION", "PROJECT_BINARY_DIR",
    "PROJECT_NAME", "PROJECT_SOURCE_DIR",
    "UNIX", "WIN32",
    "XCODE_VERSION"
  ]

  // CMakeTools/CMakeVariableDeclarations.cs, lines 174-188.
  const LanguageTemplates1: seq<string> := [
    "CMAKE_{0}_ARCHIVE_APPEND", "CMAKE_{0}_ARCHIVE_CREATE",
    "CMAKE_{0}_ARCHIVE_FINISH", "CMAKE_{0}_COMPILER",
    "CMAKE_{0}_COMPILER_ABI", "CMAKE_{0}_COMPILER_ID",
    "CMAKE_{0}_COMPILER_LOADED", "CMAKE_{0}_COMPILER_VERSION",
    "CMAKE_{0}_COMPILE_OBJECT", "CMAKE_{0}_CREATE_SHARED_LIBRARY",
    "CMAKE_{0}_CREATE_SHARED_MODULE", "CMAKE_{0}_CREATE_STATIC_LIBRARY",
    "CMAKE_{0}_FLAGS_DEBUG", "CMAKE_{0}_FLAGS_MINSIZEREL",
    "CMAKE_{0}_FLAGS_RELEASE"
  ]

  // CMakeTools/CMakeVariableDeclarations.cs, lines 189-202.
  const LanguageTemplates2: seq<string> := [
    "CMAKE_{0}_FLAGS_RELWITHDEBINFO", "CMAKE_{0}_IGNORE_EXTENSIONS",
    "CMAKE_{0}_IMPLICIT_INCLUDE_DIRECTORIES", "CMAKE_{0}_IMPLICIT_LINK_DIRECTORIES",
    "CMAKE_{0}_IMPLICIT_LINK_LIBRARIES", "CMAKE_{0}_LIBRARY_ARCHITECTURE",
    "CMAKE_{0}_LINKER_PREFERENCE", "CMAKE_{0}_LINKER_PREFERENCE_PROPAGATES",
    "CMAKE_{0}_LINK_EXECUTABLE", "CMAKE_{0}_OUTPUT_EXTENSION",
    "CMAKE_{0}_PLATFORM_ID", "CMAKE_{0}_SIZEOF_DATA_PTR",
    "CMAKE_{0}_SOURCE_FILE_EXTENSIONS", "CMAKE_USER_MAKE_RULES_OVERRIDE_{0}"
  ]

  // CMakeTools/CMakeVariableDeclarations.cs, lines 209-221.
  const EnvironmentVariables1: seq<string> := [
    "ALLUSERSPROFILE", "APPDATA",
    "COMPUTERNAME", "COMMONPROGRAMFILES",
    "COMSPEC", "HOMEDRIVE",
    "HOMEPATH", "LOCALAPPDATA",
    "LOGONSERVER", "PATH",
    "PATHEXT", "PROGRAMDATA",
    "PROGRAMFILES"
  ]

  // CMakeTools/CMakeVariableDeclarations.cs, lines 222-233.
  const EnvironmentVariables2: seq<string> := [
    "PROMPT", "PSMODULEPATH",
    "PUBLIC", "SYSTEMDRIVE",
    "SYSTEMROOT", "TEMP",
    "TMP", "USERDOMAIN",
    "USERDATA", "USERNAME",
    "USERPROFILE", "WINDIR"
  ]

  /** `_standardVariables`, in the order of the source. */
  const StandardVariables: seq<string> :=
    StandardVariables1 + StandardVariables2 + StandardVariables3 + StandardVariables4
    + StandardVariables5 + StandardVariables6 + StandardVariables7

  /** `_standardLangVariables`: templates whose `{0}` is a language name. */
  const LanguageTemplates: seq<string> := LanguageTemplates1 + LanguageTemplates2

  /** `_standardEnvVariables`, in the order of the source. */
  const EnvironmentVariables: seq<string> := EnvironmentVariables1 + EnvironmentVariables2

  /** The list the catalog starts from. */
  function BaseVariables(useEnv: bool): seq<string>
  {
    if useEnv then EnvironmentVariables else StandardVariables
  }

  lemma TableSizes()
    ensures |StandardVariables| == 141
    ensures |LanguageTemplates| == 29
    ensures |EnvironmentVariables| == 25
  {
  }

  // ---------------------------------------------------------------------
  // Language templates
  // ---------------------------------------------------------------------

  /** `string.Format(template, language)`: every `{0}` of the template
      replaced by the language name. */
  function Format(template: string, language: string): string
  {
    if template == [] then []
    else if |template| >= 3 && template[0] == '{' && template[1] == '0' && template[2] == '}' then
      language + Format(template[3..], language)
    else [template[0]] + Format(template[1..], language)
  }

  /** Text without a placeholder is left as it is. */
  lemma {:induction false} FormatNoPlaceholder(text: string, language: string)
    requires '{' !in text
    ensures Format(text, language) == text
  {
    if text != [] {
      FormatNoPlaceholder(text[1..], language);
      assert text == [text[0]] + text[1..];
    }
  }

  /** A template with one placeholder becomes the text around it with the
      language name in its place. */
  lemma {:induction false} FormatOnePlaceholder(prefix: string, suffix: string, language: string)
    requires '{' !in prefix && '{' !in suffix
    ensures Format(prefix + "{0}" + suffix, language) == prefix + language + suffix
  {
    if prefix == [] {
      assert (prefix + "{0}" + suffix)[3..] == suffix;
      FormatNoPlaceholder(suffix, language);
    } else {
      var t := prefix + "{0}" + suffix;
      assert t[0] == prefix[0] && t[0] != '{';
      assert t[1..] == prefix[1..] + "{0}" + suffix;
      FormatOnePlaceholder(prefix[1..], suffix, language);
      assert prefix == [prefix[0]] + prefix[1..];
    }
  }

  /** The templates instantiated for one language, in template order. */
  function FormatAll(templates: seq<string>, language: string): (r: seq<string>)
    ensures |r| == |templates|
    ensures forall j :: 0 <= j < |r| ==> r[j] == Format(templates[j], language)
  {
    if templates == [] then []
    else FormatAll(templates[..|templates| - 1], language) + [Format(templates[|templates| - 1], language)]
  }

  /** The templates instantiated for every language, language by language. */
  function FormatForEach(templates: seq<string>, languages: seq<string>): seq<string>
  {
    if languages == [] then []
    else FormatForEach(templates, languages[..|languages| - 1]) + FormatAll(templates, languages[|languages| - 1])
  }

  /** Each language contributes one entry per template. */
  lemma {:induction false} FormatForEachCount(templates: seq<string>, languages: seq<string>)
    ensures |FormatForEach(templates, languages)| == |templates| * |languages|
  {
    if languages != [] {
      var n := |languages| - 1;
      FormatForEachCount(templates, languages[..n]);
      assert |FormatForEach(templates, languages)| == |templates| * n + |templates|;
      assert |templates| * n + |templates| == |templates| * (n + 1) by {
        MulSucc(|templates|, n);
      }
    }
  }

  lemma MulSucc(a: nat, n: nat)
    ensures a * n + a == a * (n + 1)
  {
  }

  /** `v` is one of the templates instantiated with one of the languages. */
  ghost predicate IsInstance(templates: seq<string>, languages: seq<string>, v: string)
  {
    exists i, j :: 0 <= i < |languages| && 0 <= j < |templates| && v == Format(templates[j], languages[i])
  }

  lemma {:induction false} FormatForEachOnlyInstances(templates: seq<string>, languages: seq<string>, v: string)
    requires v in FormatForEach(templates, languages)
    ensures IsInstance(templates, languages, v)
  {
    var init := languages[..|languages| - 1];
    var last := languages[|languages| - 1];
    if v in FormatForEach(templates, init) {
      FormatForEachOnlyInstances(templates, init, v);
      var i, j :| 0 <= i < |init| && 0 <= j < |templates| && v == Format(templates[j], init[i]);
      assert languages[i] == init[i];
    } else {
      var j :| 0 <= j < |templates| && FormatAll(templates, last)[j] == v;
      assert v == Format(templates[j], languages[|languages| - 1]);
    }
  }

  lemma {:induction false} FormatForEachAllInstances(templates: seq<string>, languages: seq<string>, i: int, j: int)
    requires 0 <= i < |languages| && 0 <= j < |templates|
    ensures Format(templates[j], languages[i]) in FormatForEach(templates, languages)
  {
    var init := languages[..|languages| - 1];
    var last := languages[|languages| - 1];
    if i < |init| {
      assert languages[i] == init[i];
      FormatForEachAllInstances(templates, init, i, j);
    } else {
      assert FormatAll(templates, last)[j] == Format(templates[j], languages[i]);
    }
  }

  /** The entries are exactly the templates instantiated with the languages. */
  lemma FormatForEachContents(templates: seq<string>, languages: seq<string>, v: string)
    ensures v in FormatForEach(templates, languages) <==> IsInstance(templates, languages, v)
  {
    if v in FormatForEach(templates, languages) {
      FormatForEachOnlyInstances(templates, languages, v);
    }
    if IsInstance(templates, languages, v) {
      var i, j :| 0 <= i < |languages| && 0 <= j < |templates| && v == Format(templates[j], languages[i]);
      FormatForEachAllInstances(templates, languages, i, j);
    }
  }

  /** The per-language variables of every language CMake knows. */
  function AllLanguageVariables(languages: seq<string>): seq<string>
  {
    FormatForEach(LanguageTemplates, languages)
  }

  // ---------------------------------------------------------------------
  // The catalog
  // ---------------------------------------------------------------------

  function OrEmpty(s: Option<seq<string>>): seq<string>
  {
    if s.Some? then s.value else []
  }

  /** The entries before sorting: the base list, then the language
      variables when CMake's modules were found (`languages` is `None`
      when they were not), then the user variables when there are any. */
  function Unsorted(userVariables: Option<seq<string>>, useEnv: bool,
                    languages: Option<seq<string>>): seq<string>
  {
    BaseVariables(useEnv) + AllLanguageVariables(OrEmpty(languages)) + OrEmpty(userVariables)
  }

  /** The catalog after construction. */
  function Catalog(userVariables: Option<seq<string>>, useEnv: bool,
                   languages: Option<seq<string>>): seq<string>
  {
    Sort(Unsorted(userVariables, useEnv, languages))
  }

  /** The catalog is sorted. */
  lemma CatalogSorted(userVariables: Option<seq<string>>, useEnv: bool,
                      languages: Option<seq<string>>)
    ensures Sorted(Catalog(userVariables, useEnv, languages))
  {
    SortSortsAndPermutes(Unsorted(userVariables, useEnv, languages));
  }

  /** Sorting the three parts keeps them with their repetitions. */
  lemma SortedPartsPermute(base: seq<string>, languages: seq<string>, user: seq<string>)
    ensures multiset(Sort(base + AllLanguageVariables(languages) + user))
         == multiset(base) + multiset(AllLanguageVariables(languages)) + multiset(user)
  {
    SortSortsAndPermutes(base + AllLanguageVariables(languages) + user);
  }

  /** The catalog holds the parts with their repetitions: nothing is
      dropped and no duplicate is removed. */
  lemma CatalogPermutesParts(userVariables: Option<seq<string>>, useEnv: bool,
                             languages: Option<seq<string>>)
    ensures multiset(Catalog(userVariables, useEnv, languages))
         == multiset(BaseVariables(useEnv)) + multiset(AllLanguageVariables(OrEmpty(languages)))
            + multiset(OrEmpty(userVariables))
  {
    SortedPartsPermute(BaseVariables(useEnv), OrEmpty(languages), OrEmpty(userVariables));
  }

  lemma SortedPartsCount(base: seq<string>, languages: seq<string>, user: seq<string>)
    ensures |Sort(base + AllLanguageVariables(languages) + user)|
         == |base| + 29 * |languages| + |user|
  {
    SortedPartsPermute(base, languages, user);
    FormatForEachCount(LanguageTemplates, languages);
    TableSizes();
    var u := base + AllLanguageVariables(languages) + user;
    assert |multiset(Sort(u))| == |multiset(u)|;
  }

  /** There are as many entries as base names, 29 per language, and user
      variables. */
  lemma CatalogCount(userVariables: Option<seq<string>>, useEnv: bool,
                     languages: Option<seq<string>>)
    ensures |Catalog(userVariables, useEnv, languages)|
         == |BaseVariables(useEnv)| + 29 * |OrEmpty(languages)| + |OrEmpty(userVariables)|
  {
    SortedPartsCount(BaseVariables(useEnv), OrEmpty(languages), OrEmpty(userVariables));
  }

  lemma SortedPartsContents(base: seq<string>, languages: seq<string>, user: seq<string>, v: string)
    ensures v in Sort(base + AllLanguageVariables(languages) + user)
        <==> v in base || v in AllLanguageVariables(languages) || v in user
  {
    SortedPartsPermute(base, languages, user);
    var r := Sort(base + AllLanguageVariables(languages) + user);
    assert v in r <==> v in multiset(r);
  }

  /** A name is in the catalog exactly when it is a base name, a template
      instantiated with a language, or a user variable. */
  lemma CatalogContents(userVariables: Option<seq<string>>, useEnv: bool,
                        languages: Option<seq<string>>, v: string)
    ensures v in Catalog(userVariables, useEnv, languages)
        <==> v in BaseVariables(useEnv)
             || (languages.Some? && IsInstance(LanguageTemplates, languages.value, v))
             || (userVariables.Some? && v in userVariables.value)
  {
    SortedPartsContents(BaseVariables(useEnv), OrEmpty(languages), OrEmpty(userVariables), v);
    FormatForEachContents(LanguageTemplates, OrEmpty(languages), v);
  }

  /** The constructor's loop over the languages: the templates,
      instantiated with each language in turn, appended. */
  method AppendLanguageVariables(vs: seq<string>, templates: seq<string>, ls: seq<string>) returns (r: seq<string>)
    ensures r == vs + FormatForEach(templates, ls)
  {
    r := vs;
    for i := 0 to |ls|
      invariant r == vs + FormatForEach(templates, ls[..i])
    {
      assert ls[..i + 1][..i] == ls[..i];
      assert FormatForEach(templates, ls[..i + 1]) == FormatForEach(templates, ls[..i]) + FormatAll(templates, ls[i]);
      r := r + FormatAll(templates, ls[i]);
    }
    assert ls[..|ls|] == ls;
  }

  /** `CMakeVariableDeclarations`: the catalog object. */
  class VariableDeclarations {
    var variables: seq<string>

    /** The constructor. `languages` is the result of looking up the
        languages in CMake's module directory, `None` when that directory
        was not found. */
    constructor (userVariables: Option<seq<string>>, useEnv: bool, languages: Option<seq<string>>)
      ensures variables == Catalog(userVariables, useEnv, languages)
    {
      var vs := BaseVariables(useEnv);
      if languages.Some? {
        vs := AppendLanguageVariables(vs, LanguageTemplates, languages.value);
      }
      assert vs == BaseVariables(useEnv) + AllLanguageVariables(OrEmpty(languages));
      if userVariables.Some? {
        vs := vs + userVariables.value;
      }
      assert vs == Unsorted(userVariables, useEnv, languages);
      variables := Sort(vs);
    }

    /** `GetCount`: the number of entries. */
    function GetCount(): (r: int)
      reads this
      ensures r == |variables|
    {
      |variables|
    }

    /** `GetName`: the entry at the index, `None` outside the list. */
    function GetName(index: int): (r: Option<string>)
      reads this
      ensures r.None? <==> index < 0 || index >= |variables|
      ensures r.Some? ==> r.value == variables[index]
    {
      if index < 0 || index >= |variables| then None else Some(variables[index])
    }

    /** `GetDisplayText`: the same as `GetName`. */
    function GetDisplayText(index: int): (r: Option<string>)
      reads this
      ensures r.None? <==> index < 0 || index >= |variables|
      ensures r.Some? ==> r.value == variables[index]
    {
      GetName(index)
    }
  }

  // ---------------------------------------------------------------------
  // Standard variables
  // ---------------------------------------------------------------------

  /** `IsStandardVariable` as its callers need it: the upper-cased name is
      in the standard list (the environment list when `useEnv`). */
  predicate IsStandardVariable(varName: string, useEnv: bool)
  {
    Upper(varName) in BaseVariables(useEnv)
  }

  /** The test ignores case. */
  lemma IsStandardVariableIgnoresCase(varName: string, useEnv: bool)
    ensures IsStandardVariable(varName, useEnv) == IsStandardVariable(Upper(varName), useEnv)
  {
    UpperIdempotent(varName);
  }

  /** `IsStandardVariable` as written: a binary search of the list, which is
      a membership test only on a sorted list. */
  predicate IsStandardVariableAsWritten(varName: string, useEnv: bool)
  {
    BinarySearch(BaseVariables(useEnv), Upper(varName)) >= 0
  }

  /** What the search finds is there: the search errs only by missing. */
  lemma AsWrittenFindsOnlyStandard(varName: string, useEnv: bool)
    requires IsStandardVariableAsWritten(varName, useEnv)
    ensures IsStandardVariable(varName, useEnv)
  {
    var r := BinarySearch(BaseVariables(useEnv), Upper(varName));
    assert BaseVariables(useEnv)[r] == Upper(varName);
  }

  /** Neither list is sorted: `CMAKE_DL_LIBS` precedes `CMAKE_DEBUG_POSTFIX`,
      `COMPUTERNAME` precedes `COMMONPROGRAMFILES`, `USERDOMAIN` precedes
      `USERDATA`. */
  lemma ListsNotSorted()
    ensures StandardVariables[32] == "CMAKE_DL_LIBS" && StandardVariables[33] == "CMAKE_DEBUG_POSTFIX"
    ensures Below(StandardVariables[33], StandardVariables[32])
    ensures EnvironmentVariables[2] == "COMPUTERNAME" && EnvironmentVariables[3] == "COMMONPROGRAMFILES"
    ensures Below(EnvironmentVariables[3], EnvironmentVariables[2])
    ensures EnvironmentVariables[20] == "USERDOMAIN" && EnvironmentVariables[21] == "USERDATA"
    ensures Below(EnvironmentVariables[21], EnvironmentVariables[20])
    ensures !StrictlySorted(StandardVariables) && !StrictlySorted(EnvironmentVariables)
  {
    assert Below("CMAKE_DEBUG_POSTFIX", "CMAKE_DL_LIBS");
    assert Below("COMMONPROGRAMFILES", "COMPUTERNAME");
    assert Below("USERDATA", "USERDOMAIN");
    BelowAsymmetric(StandardVariables[33], StandardVariables[32]);
    BelowAsymmetric(EnvironmentVariables[3], EnvironmentVariables[2]);
  }

  /** The entries of the standard list that the search for
      `CMAKE_DEBUG_POSTFIX` probes, and where that name is. */
  lemma DebugPostfixProbes()
    ensures StandardVariables[33] == "CMAKE_DEBUG_POSTFIX"
    ensures Below("CMAKE_DEBUG_POSTFIX", StandardVariables[70])
    ensures Below("CMAKE_DEBUG_POSTFIX", StandardVariables[34])
    ensures Below(StandardVariables[16], "CMAKE_DEBUG_POSTFIX")
    ensures Below(StandardVariables[25], "CMAKE_DEBUG_POSTFIX")
    ensures Below(StandardVariables[29], "CMAKE_DEBUG_POSTFIX")
    ensures Below(StandardVariables[31], "CMAKE_DEBUG_POSTFIX")
    ensures Below("CMAKE_DEBUG_POSTFIX", StandardVariables[32])
  {
    assert StandardVariables[70] == "CMAKE_LINK_LIBRARY_FLAG";
    assert StandardVariables[34] == "CMAKE_EDIT_COMMAND";
    assert StandardVariables[16] == "CMAKE_CACHE_MINOR_VERSION";
    assert StandardVariables[25] == "CMAKE_CROSSCOMPILING";
    assert StandardVariables[29] == "CMAKE_CURRENT_LIST_FILE";
    assert StandardVariables[31] == "CMAKE_CURRENT_SOURCE_DIR";
    assert StandardVariables[32] == "CMAKE_DL_LIBS";
  }

  /** The probes of the search of a 141-entry list that, like the standard
      list, holds larger strings at 70 and 34, smaller ones at 16, 25, 29
      and 31, and a larger one at 32. */
  lemma DebugPostfixSearch(a: seq<string>, k: string)
    requires |a| == 141
    requires Below(k, a[70]) && Below(k, a[34]) && Below(a[16], k) && Below(a[25], k)
    requires Below(a[29], k) && Below(a[31], k) && Below(k, a[32])
    ensures SearchRange(a, k, 0, 140) < 0
  {
    SearchStepDown(a, k, 0, 140);
    SearchStepDown(a, k, 0, 69);
    SearchStepUp(a, k, 0, 33);
    SearchStepUp(a, k, 17, 33);
    SearchStepUp(a, k, 26, 33);
    SearchStepUp(a, k, 30, 33);
    SearchStepDown(a, k, 32, 33);
  }

  /** `CMAKE_DEBUG_POSTFIX` is listed, but the search of the unsorted list
      misses it: it probes indices 70, 34, 16, 25, 29, 31 and 32 and gives
      up between `CMAKE_CURRENT_SOURCE_DIR` and `CMAKE_DL_LIBS`. */
  lemma DebugPostfixMissed(varName: string)
    requires Upper(varName) == "CMAKE_DEBUG_POSTFIX"
    ensures IsStandardVariable(varName, false)
    ensures !IsStandardVariableAsWritten(varName, false)
  {
    DebugPostfixProbes();
    TableSizes();
    DebugPostfixSearch(StandardVariables, Upper(varName));
  }

  /** The entries of the environment list that the search for
      `COMMONPROGRAMFILES` probes, and where that name is. */
  lemma CommonProgramFilesProbes()
    ensures EnvironmentVariables[3] == "COMMONPROGRAMFILES"
    ensures Below("COMMONPROGRAMFILES", EnvironmentVariables[12])
    ensures Below("COMMONPROGRAMFILES", EnvironmentVariables[5])
    ensures Below("COMMONPROGRAMFILES", EnvironmentVariables[2])
    ensures Below(EnvironmentVariables[0], "COMMONPROGRAMFILES")
    ensures Below(EnvironmentVariables[1], "COMMONPROGRAMFILES")
  {
    assert EnvironmentVariables[12] == "PROGRAMFILES";
    assert EnvironmentVariables[5] == "HOMEDRIVE";
    assert EnvironmentVariables[2] == "COMPUTERNAME";
    assert EnvironmentVariables[0] == "ALLUSERSPROFILE";
    assert EnvironmentVariables[1] == "APPDATA";
  }

  /** The probes of the search of a 25-entry list that, like the
      environment list, holds larger strings at 12, 5 and 2 and smaller
      ones at 0 and 1. */
  lemma CommonProgramFilesSearch(a: seq<string>, k: string)
    requires |a| == 25
    requires Below(k, a[12]) && Below(k, a[5]) && Below(k, a[2]) && Below(a[0], k) && Below(a[1], k)
    ensures SearchRange(a, k, 0, 24) < 0
  {
    SearchStepDown(a, k, 0, 24);
    SearchStepDown(a, k, 0, 11);
    SearchStepDown(a, k, 0, 4);
    SearchStepUp(a, k, 0, 1);
    SearchStepUp(a, k, 1, 1);
  }

  /** `COMMONPROGRAMFILES` is listed among the environment variables, but
      the search probes indices 12, 5, 2, 0 and 1 and gives up between
      `APPDATA` and `COMPUTERNAME`. */
  lemma CommonProgramFilesMissed(varName: string)
    requires Upper(varName) == "COMMONPROGRAMFILES"
    ensures IsStandardVariable(varName, true)
    ensures !IsStandardVariableAsWritten(varName, true)
  {
    CommonProgramFilesProbes();
    TableSizes();
    CommonProgramFilesSearch(EnvironmentVariables, Upper(varName));
  }
}
