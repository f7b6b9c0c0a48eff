/** `CMakeSubcommandMethods`: the parameter lists of the subcommands of the
    commands that take one (`file(GLOB ...)`, `string(REPLACE ...)`, ...),
    and the methods object that shows one of them as a parameter tip. */
module SubcommandMethods {
  import opened Wrappers
  import opened Strings
  import opened Keywords

  /** A catalog entry: the subcommand's parameters, or `Open` where the
      catalog holds `null` because the subcommand has no fixed shape. */
  datatype Shape = Fixed(parameters: seq<string>) | Open

  /** A dictionary from subcommand names to shapes, written as two
      parallel lists: the shape of `keys[k]` is `shapes[k]`. */
  datatype Catalog = Catalog(keys: seq<string>, shapes: seq<Shape>)

  // cmake_policy
  const CMakePolicyGetParams: seq<string> := ["policy_number", "output_variable"]
  const CMakePolicyPushParams: seq<string> := []
  const CMakePolicyPopParams: seq<string> := CMakePolicyPushParams
  const CMakePolicySetParams: seq<string> := ["policy_number", "behavior"]
  const CMakePolicyVersionParams: seq<string> := ["version_number"]

  const CMakePolicyKeys: seq<string> := [
    "GET", "POP", "PUSH", "SET", "VERSION"
  ]

  const CMakePolicyShapes: seq<Shape> := [
    Fixed(CMakePolicyGetParams),
    Fixed(CMakePolicyPopParams),
    Fixed(CMakePolicyPushParams),
    Fixed(CMakePolicySetParams),
    Fixed(CMakePolicyVersionParams)
  ]

  const CMakePolicySubcommands := Catalog(CMakePolicyKeys, CMakePolicyShapes)

  // define_property
  const DefinePropertyKeys: seq<string> := [
    "CACHED_VARIABLE", "DIRECTORY", "GLOBAL", "SOURCE", "TARGET", "TEST",
    "VARIABLE"
  ]

  const DefinePropertyShapes: seq<Shape> := [
    Open,
    Open,
    Open,
    Open,
    Open,
    Open,
    Open
  ]

  const DefinePropertySubcommands := Catalog(DefinePropertyKeys, DefinePropertyShapes)

  // export
  const ExportPackageParams: seq<string> := ["name"]

  const ExportKeys: seq<string> := [
    "PACKAGE", "TARGETS"
  ]

  const ExportShapes: seq<Shape> := [
    Fixed(ExportPackageParams),
    Open
  ]

  const ExportSubcommands := Catalog(ExportKeys, ExportShapes)

  // file
  const FileAppendParams: seq<string> := ["filename", "message"]
  const FileDownloadParams: seq<string> := ["url", "filename"]
  const FileGlobParams: seq<string> := ["variable", "glob1 glob2 ..."]
  const FileGlobRecurseParams: seq<string> := FileGlobParams
  const FileMakeDirectoryParams: seq<string> := ["directory1 directory2 ..."]
  const FileReadParams: seq<string> := ["filename", "variable"]
  const FileMD5Params: seq<string> := FileReadParams
  const FileSHA1Params: seq<string> := FileReadParams
  const FileSHA224Params: seq<string> := FileReadParams
  const FileSHA256Params: seq<string> := FileReadParams
  const FileSHA384Params: seq<string> := FileReadParams
  const FileSHA512Params: seq<string> := FileReadParams
  const FileRelativePathParams: seq<string> := ["variable", "directory", "filename"]
  const FileRemoveParams: seq<string> := ["filename1 filename2 ..."]
  const FileRemoveRecurseParams: seq<string> := FileRemoveParams
  const FileRenameParams: seq<string> := ["old_name", "new_name"]
  const FileStringsParams: seq<string> := FileReadParams
  const FileToCMakePathParams: seq<string> := ["path", "variable"]
  const FileToNativePathParams: seq<string> := FileToCMakePathParams
  const FileUploadParams: seq<string> := ["filename", "url"]
  const FileWriteParams: seq<string> := FileAppendParams

  const FileKeys: seq<string> := [
    "APPEND", "DOWNLOAD", "GLOB", "GLOB_RECURSE", "MAKE_DIRECTORY", "MD5",
    "READ", "RELATIVE_PATH", "REMOVE", "REMOVE_RECURSE", "RENAME", "SHA1",
    "SHA224", "SHA256", "SHA384", "SHA512", "STRINGS", "TO_CMAKE_PATH",
    "TO_NATIVE_PATH", "UPLOAD", "WRITE"
  ]

  const FileShapes: seq<Shape> := [
    Fixed(FileAppendParams),
    Fixed(FileDownloadParams),
    Fixed(FileGlobParams),
    Fixed(FileGlobRecurseParams),
    Fixed(FileMakeDirectoryParams),
    Fixed(FileMD5Params),
    Fixed(FileReadParams),
    Fixed(FileRelativePathParams),
    Fixed(FileRemoveParams),
    Fixed(FileRemoveRecurseParams),
    Fixed(FileRenameParams),
    Fixed(FileSHA1Params),
    Fixed(FileSHA224Params),
    Fixed(FileSHA256Params),
    Fixed(FileSHA384Params),
    Fixed(FileSHA512Params),
    Fixed(FileStringsParams),
    Fixed(FileToCMakePathParams),
    Fixed(FileToNativePathParams),
    Fixed(FileUploadParams),
    Fixed(FileWriteParams)
  ]

  const FileSubcommands := Catalog(FileKeys, FileShapes)

  // install
  const InstallKeys: seq<string> := [
    "CODE", "DIRECTORY", "EXPORT", "FILES", "PROGRAMS", "SCRIPTS",
    "TARGETS"
  ]

  const InstallShapes: seq<Shape> := [
    Open,
    Open,
    Open,
    Open,
    Open,
    Open,
    Open
  ]

  const InstallSubcommands := Catalog(InstallKeys, InstallShapes)

  // list
  const ListAppendParams: seq<string> := ["list", "element1 element2 ..."]
  const ListFindParams: seq<string> := ["list", "value", "output_variable"]
  const ListGetParams: seq<string> := ["list", "index", "output_variable"]
  const ListInsertParams: seq<string> := ["list", "index", "element1 element2 ..."]
  const ListLengthParams: seq<string> := ["list", "output_variable"]
  const ListRemoveAtParams: seq<string> := ["list", "index1 index2 ..."]
  const ListRemoveDuplicatesParams: seq<string> := ["list"]
  const ListRemoveItemParams: seq<string> := ["list", "value1 value2 ..."]
  const ListReverseParams: seq<string> := ListRemoveDuplicatesParams
  const ListSortParams: seq<string> := ListRemoveDuplicatesParams

  const ListKeys: seq<string> := [
    "APPEND", "FIND", "GET", "INSERT", "LENGTH", "REMOVE_AT",
    "REMOVE_DUPLICATES", "REMOVE_ITEM", "REVERSE", "SORT"
  ]

  const ListShapes: seq<Shape> := [
    Fixed(ListAppendParams),
    Fixed(ListFindParams),
    Fixed(ListGetParams),
    Fixed(ListInsertParams),
    Fixed(ListLengthParams),
    Fixed(ListRemoveAtParams),
    Fixed(ListRemoveDuplicatesParams),
    Fixed(ListRemoveItemParams),
    Fixed(ListReverseParams),
    Fixed(ListSortParams)
  ]

  const ListSubcommands := Catalog(ListKeys, ListShapes)

  // set_property
  const SetPropertyKeys: seq<string> := [
    "CACHE", "DIRECTORY", "GLOBAL", "SOURCE", "TARGET", "TEST"
  ]

  const SetPropertyShapes: seq<Shape> := [
    Open,
    Open,
    Open,
    Open,
    Open,
    Open
  ]

  const SetPropertySubcommands := Catalog(SetPropertyKeys, SetPropertyShapes)

  // string
  const StringAsciiParams: seq<string> := ["number", "output_variable"]
  const StringConfigureParams: seq<string> := ["string", "output_variable"]
  const StringFindParams: seq<string> := ["string", "substring", "output_variable"]
  const StringLengthParams: seq<string> := StringConfigureParams
  const StringMD5Params: seq<string> := ["output_variable", "input"]
  const StringSHA1Params: seq<string> := StringMD5Params
  const StringSHA224Params: seq<string> := StringMD5Params
  const StringSHA256Params: seq<string> := StringMD5Params
  const StringSHA384Params: seq<string> := StringMD5Params
  const StringSHA512Params: seq<string> := StringMD5Params
  const StringRandomParams: seq<string> := ["output_variable"]
  const StringReplaceParams: seq<string> := ["match_string", "replace_string", "output_variable", "input1 input2 ..."]
  const StringStripParams: seq<string> := StringConfigureParams
  const StringSubstringParams: seq<string> := ["string", "begin_index", "length", "output_variable"]
  const StringToLowerParams: seq<string> := StringConfigureParams
  const StringToUpperParams: seq<string> := StringConfigureParams

  const StringKeys: seq<string> := [
    "ASCII", "CONFIGURE", "FIND", "LENGTH", "MD5", "RANDOM",
    "REGEX", "REPLACE", "SHA1", "SHA224", "SHA256", "SHA384",
    "SHA512", "STRIP", "SUBSTRING", "TOLOWER", "TOUPPER"
  ]

  const StringShapes: seq<Shape> := [
    Fixed(StringAsciiParams),
    Fixed(StringConfigureParams),
    Fixed(StringFindParams),
    Fixed(StringLengthParams),
    Fixed(StringMD5Params),
    Fixed(StringRandomParams),
    Open,
    Fixed(StringReplaceParams),
    Fixed(StringSHA1Params),
    Fixed(StringSHA224Params),
    Fixed(StringSHA256Params),
    Fixed(StringSHA384Params),
    Fixed(StringSHA512Params),
    Fixed(StringStripParams),
    Fixed(StringSubstringParams),
    Fixed(StringToLowerParams),
    Fixed(StringToUpperParams)
  ]

  const StringSubcommands := Catalog(StringKeys, StringShapes)

  /** `_allSubcommands`: the catalog of a command, `None` for a command
      without subcommands. */
  function SubcommandsOf(id: CommandId): Option<Catalog>
  {
    if id.CMakePolicy? then Some(CMakePolicySubcommands)
    else if id.DefineProperty? then Some(DefinePropertySubcommands)
    else if id.Export? then Some(ExportSubcommands)
    else if id.File? then Some(FileSubcommands)
    else if id.Install? then Some(InstallSubcommands)
    else if id.List? then Some(ListSubcommands)
    else if id.SetProperty? then Some(SetPropertySubcommands)
    else if id.String? then Some(StringSubcommands)
    else None
  }

  /** The keys of `_allSubcommands`, in the order of the source. */
  const CommandsWithSubcommands: seq<CommandId> :=
    [CMakePolicy, DefineProperty, Export, File, Install, List, SetProperty, String]

  /** The position of the first occurrence of `key`, or -1. */
  function IndexOf(keys: seq<string>, key: string): (r: int)
    ensures -1 <= r < |keys|
    ensures r >= 0 ==> keys[r] == key && forall j :: 0 <= j < r ==> keys[j] != key
    ensures r < 0 <==> key !in keys
  {
    if keys == [] then -1
    else if keys[0] == key then 0
    else
      var r := IndexOf(keys[1..], key);
      if r < 0 then -1 else r + 1
  }

  /** The dictionary lookup: the shape stored under `key`, `None` when the
      key is missing (`ContainsKey` is false). The match is exact, so case
      matters. */
  function Lookup(c: Catalog, key: string): (r: Option<Shape>)
    ensures r.Some? ==> key in c.keys && r.value in c.shapes
    ensures |c.keys| == |c.shapes| ==> (r.Some? <==> key in c.keys)
  {
    var k := IndexOf(c.keys, key);
    if 0 <= k < |c.shapes| then Some(c.shapes[k]) else None
  }

  /** A dictionary: one shape per key and each key once; listing the keys
      in ascending ordinal order makes them distinct. */
  predicate WellFormedCatalog(c: Catalog)
  {
    |c.keys| == |c.shapes| && Ascending(c.keys)
  }

  /** In a well-formed catalog, looking up a key finds its own shape. */
  lemma LookupEntry(c: Catalog, k: int)
    requires WellFormedCatalog(c) && 0 <= k < |c.keys|
    ensures Lookup(c, c.keys[k]) == Some(c.shapes[k])
  {
    var r := IndexOf(c.keys, c.keys[k]);
    assert r <= k;
    if r < k {
      AscendingIsStrictlySorted(c.keys);
      assert Below(c.keys[r], c.keys[k]);
      BelowIrreflexive(c.keys[k]);
    }
  }

  /** `HasSubcommands`. */
  predicate HasSubcommands(id: CommandId)
  {
    SubcommandsOf(id).Some?
  }

  /** Exactly the eight commands of the catalog take subcommands. */
  lemma HasSubcommandsExactly(id: CommandId)
    ensures HasSubcommands(id) <==> id in CommandsWithSubcommands
  {
  }

  /** `GetSubcommands`: the subcommand names of a command in catalog order,
      `None` for a command without subcommands. */
  function GetSubcommands(id: CommandId): (r: Option<seq<string>>)
    ensures r.None? <==> !HasSubcommands(id)
    ensures r.Some? ==> r.value == SubcommandsOf(id).value.keys
  {
    if SubcommandsOf(id).Some? then Some(SubcommandsOf(id).value.keys) else None
  }

  /** The fixed parameter list of a subcommand: `None` when the command has
      no catalog, the subcommand is not in it, or it has no fixed shape. */
  function FixedShape(id: CommandId, subcommand: string): (r: Option<seq<string>>)
    ensures r.Some? ==> HasSubcommands(id) && Lookup(SubcommandsOf(id).value, subcommand) == Some(Fixed(r.value))
    ensures r.None? <==> !HasSubcommands(id) || Lookup(SubcommandsOf(id).value, subcommand).None?
                         || Lookup(SubcommandsOf(id).value, subcommand) == Some(Open)
  {
    if SubcommandsOf(id).None? then None
    else match Lookup(SubcommandsOf(id).value, subcommand)
      case None => None
      case Some(Open) => None
      case Some(Fixed(ps)) => Some(ps)
  }

  /** A parameter's name, display text and description, each `None` where
      the source gives `null`. */
  datatype ParameterInfo = ParameterInfo(name: Option<string>, display: Option<string>, description: Option<string>)

  /** The methods object for one subcommand of one command. */
  datatype SubcommandMethods = SubcommandMethods(id: CommandId, subcommand: string)
  {
    /** `GetCount`: one signature. */
    function GetCount(): int
    {
      1
    }

    function GetDescription(index: int): Option<string>
    {
      None
    }

    /** `GetName`: the command's name, an opening parenthesis and the
        subcommand; `commandName` is `GetCommandFromId`. */
    function GetName(commandName: CommandId -> string, index: int): (r: string)
      ensures |r| == |commandName(id)| + 1 + |subcommand|
      ensures r[..|commandName(id)|] == commandName(id) && r[|commandName(id)|] == '('
      ensures r[|commandName(id)| + 1..] == subcommand
    {
      commandName(id) + "(" + subcommand
    }

    /** `GetParameterCount`: the length of the fixed shape, 0 when there is
        none. */
    function GetParameterCount(index: int): (r: int)
      ensures r >= 0
      ensures FixedShape(id, subcommand).None? ==> r == 0
      ensures FixedShape(id, subcommand).Some? ==> r == |FixedShape(id, subcommand).value|
    {
      if SubcommandsOf(id).None? then 0
      else match Lookup(SubcommandsOf(id).value, subcommand)
        case None => 0
        case Some(Open) => 0
        case Some(Fixed(ps)) => |ps|
    }

    /** `GetParameterInfo`: the parameter's name twice and no description;
        all three `None` when there is no fixed shape. Indexing the shape
        with a parameter outside it is an error of the caller. */
    function GetParameterInfo(index: int, parameter: int): (r: ParameterInfo)
      requires FixedShape(id, subcommand).Some? ==> 0 <= parameter < |FixedShape(id, subcommand).value|
      ensures r.description.None?
      ensures r.name == r.display
      ensures r.name.None? <==> FixedShape(id, subcommand).None?
      ensures r.name.Some? ==> r.name.value == FixedShape(id, subcommand).value[parameter]
    {
      match FixedShape(id, subcommand)
      case None => ParameterInfo(None, None, None)
      case Some(ps) => ParameterInfo(Some(ps[parameter]), Some(ps[parameter]), None)
    }

    function GetType(index: int): Option<string>
    {
      None
    }

    /** Parameters are separated by spaces. */
    function Delimiter(): string
    {
      " "
    }

    /** The subcommand is separated from its first parameter by a space. */
    function OpenBracket(): string
    {
      " "
    }
  }

  /** Whatever the subcommand: one signature, no description, no return
      type, and spaces both after the subcommand and between parameters. */
  lemma SubcommandMethodsConstants(m: SubcommandMethods, index: int)
    ensures m.GetCount() == 1 && m.GetDescription(index).None? && m.GetType(index).None?
    ensures m.Delimiter() == " " && m.OpenBracket() == " "
  {
  }

  /** `GetSubcommandParameters`: a methods object exactly when the
      subcommand has a fixed shape. */
  function GetSubcommandParameters(id: CommandId, subcommand: string): (r: Option<SubcommandMethods>)
    ensures r.None? <==> FixedShape(id, subcommand).None?
    ensures r.Some? ==> r.value == SubcommandMethods(id, subcommand)
  {
    if SubcommandsOf(id).None? then None
    else match Lookup(SubcommandsOf(id).value, subcommand)
      case None => None
      case Some(Open) => None
      case Some(Fixed(_)) => Some(SubcommandMethods(id, subcommand))
  }

  /** `GetMemberSelectionTriggers`: the commands with subcommands. */
  function GetMemberSelectionTriggers(): (r: seq<CommandId>)
    ensures forall id :: id in r <==> HasSubcommands(id)
  {
    CommandsWithSubcommands
  }

  // ---------------------------------------------------------------------
  // The catalogs are dictionaries: each lists every key once, here in
  // ascending ordinal order, with one shape per key.
  // ---------------------------------------------------------------------

  lemma CMakePolicyKeysAscending()
    ensures Ascending(CMakePolicyKeys)
  {
    forall i | 0 <= i < 4 ensures Below(CMakePolicyKeys[i], CMakePolicyKeys[i + 1]) {
      if i == 0 {
      } else if i == 1 {
      } else if i == 2 {
      }
    }
  }

  lemma DefinePropertyKeysAscending()
    ensures Ascending(DefinePropertyKeys)
  {
    forall i | 0 <= i < 6 ensures Below(DefinePropertyKeys[i], DefinePropertyKeys[i + 1]) {
      if i == 0 {
      } else if i == 1 {
      } else if i == 2 {
      } else if i == 3 {
      } else if i == 4 {
      }
    }
  }

  lemma ExportKeysAscending()
    ensures Ascending(ExportKeys)
  {
    forall i | 0 <= i < 1 ensures Below(ExportKeys[i], ExportKeys[i + 1]) {
    }
  }

  lemma FileKeysAscending()
    ensures Ascending(FileKeys)
  {
    FileKeysAscendingLow();
    FileKeysAscendingHigh();
  }

  lemma FileKeysAscendingLow()
    ensures forall i :: 0 <= i < 10 ==> Below(FileKeys[i], FileKeys[i + 1])
  {
    forall i | 0 <= i < 10 ensures Below(FileKeys[i], FileKeys[i + 1]) {
      if i == 0 {
      } else if i == 1 {
      } else if i == 2 {
      } else if i == 3 {
      } else if i == 4 {
      } else if i == 5 {
      } else if i == 6 {
      } else if i == 7 {
      } else if i == 8 {
      }
    }
  }

  lemma FileKeysAscendingHigh()
    ensures forall i :: 10 <= i < 20 ==> Below(FileKeys[i], FileKeys[i + 1])
  {
    forall i | 10 <= i < 20 ensures Below(FileKeys[i], FileKeys[i + 1]) {
      if i == 10 {
      } else if i == 11 {
      } else if i == 12 {
      } else if i == 13 {
      } else if i == 14 {
      } else if i == 15 {
      } else if i == 16 {
      } else if i == 17 {
      } else if i == 18 {
      }
    }
  }

  lemma InstallKeysAscending()
    ensures Ascending(InstallKeys)
  {
    forall i | 0 <= i < 6 ensures Below(InstallKeys[i], InstallKeys[i + 1]) {
      if i == 0 {
      } else if i == 1 {
      } else if i == 2 {
      } else if i == 3 {
      } else if i == 4 {
      }
    }
  }

  lemma ListKeysAscending()
    ensures Ascending(ListKeys)
  {
    forall i | 0 <= i < 9 ensures Below(ListKeys[i], ListKeys[i + 1]) {
      if i == 0 {
      } else if i == 1 {
      } else if i == 2 {
      } else if i == 3 {
      } else if i == 4 {
      } else if i == 5 {
      } else if i == 6 {
      } else if i == 7 {
      }
    }
  }

  lemma SetPropertyKeysAscending()
    ensures Ascending(SetPropertyKeys)
  {
    forall i | 0 <= i < 5 ensures Below(SetPropertyKeys[i], SetPropertyKeys[i + 1]) {
      if i == 0 {
      } else if i == 1 {
      } else if i == 2 {
      } else if i == 3 {
      }
    }
  }

  lemma StringKeysAscending()
    ensures Ascending(StringKeys)
  {
    forall i | 0 <= i < 16 ensures Below(StringKeys[i], StringKeys[i + 1]) {
      if i == 0 {
      } else if i == 1 {
      } else if i == 2 {
      } else if i == 3 {
      } else if i == 4 {
      } else if i == 5 {
      } else if i == 6 {
      } else if i == 7 {
      } else if i == 8 {
      } else if i == 9 {
      } else if i == 10 {
      } else if i == 11 {
      } else if i == 12 {
      } else if i == 13 {
      } else if i == 14 {
      }
    }
  }

  lemma CatalogsWellFormed(id: CommandId)
    requires HasSubcommands(id)
    ensures WellFormedCatalog(SubcommandsOf(id).value)
  {
    if id == CMakePolicy { CMakePolicyKeysAscending(); }
    else if id == DefineProperty { DefinePropertyKeysAscending(); }
    else if id == Export { ExportKeysAscending(); }
    else if id == File { FileKeysAscending(); }
    else if id == Install { InstallKeysAscending(); }
    else if id == List { ListKeysAscending(); }
    else if id == SetProperty { SetPropertyKeysAscending(); }
    else { StringKeysAscending(); }
  }

  /** Every subcommand a catalog lists has the shape listed for it, and it
      gets a methods object exactly when that shape is fixed. */
  lemma CatalogEntryFound(id: CommandId, k: int, subcommand: string)
    requires HasSubcommands(id) && 0 <= k < |SubcommandsOf(id).value.keys|
    requires SubcommandsOf(id).value.keys[k] == subcommand
    ensures var c := SubcommandsOf(id).value;
      k < |c.shapes| &&
      FixedShape(id, subcommand) == (if c.shapes[k].Fixed? then Some(c.shapes[k].parameters) else None)
    ensures var c := SubcommandsOf(id).value;
      k < |c.shapes| && (GetSubcommandParameters(id, subcommand).Some? <==> c.shapes[k].Fixed?)
  {
    CatalogsWellFormed(id);
    LookupEntry(SubcommandsOf(id).value, k);
  }

  /** The subcommands of `file` in catalog order (`file` is passed as `id`
      so that its catalog is looked up rather than unfolded). */
  lemma FileSubcommandNames(id: CommandId)
    requires id == File
    ensures GetSubcommands(id) == Some([
      "APPEND", "DOWNLOAD", "GLOB", "GLOB_RECURSE", "MAKE_DIRECTORY", "MD5", "READ",
      "RELATIVE_PATH", "REMOVE", "REMOVE_RECURSE", "RENAME", "SHA1", "SHA224", "SHA256",
      "SHA384", "SHA512", "STRINGS", "TO_CMAKE_PATH", "TO_NATIVE_PATH", "UPLOAD", "WRITE"])
  {
  }

  lemma FileGlobShape(id: CommandId)
    requires id == File
    ensures FixedShape(id, "GLOB") == Some(FileGlobParams)
  {
    CatalogEntryFound(id, 2, "GLOB");
  }

  lemma FileGlobRecurseShape(id: CommandId)
    requires id == File
    ensures FixedShape(id, "GLOB_RECURSE") == Some(FileGlobParams)
  {
    CatalogEntryFound(id, 3, "GLOB_RECURSE");
  }

  /** `file(GLOB_RECURSE)` shares the shape of `file(GLOB)`. */
  lemma FileGlobShapes(id: CommandId)
    requires id == File
    ensures FixedShape(id, "GLOB_RECURSE") == FixedShape(id, "GLOB") == Some(["variable", "glob1 glob2 ..."])
  {
    FileGlobShape(id);
    FileGlobRecurseShape(id);
  }

  lemma FileReadShape(id: CommandId)
    requires id == File
    ensures FixedShape(id, "READ") == Some(FileReadParams)
  {
    CatalogEntryFound(id, 6, "READ");
  }

  lemma FileMD5Shape(id: CommandId)
    requires id == File
    ensures FixedShape(id, "MD5") == Some(FileReadParams)
  {
    CatalogEntryFound(id, 5, "MD5");
  }

  lemma FileSHA1Shape(id: CommandId)
    requires id == File
    ensures FixedShape(id, "SHA1") == Some(FileReadParams)
  {
    CatalogEntryFound(id, 11, "SHA1");
  }

  lemma FileSHA224Shape(id: CommandId)
    requires id == File
    ensures FixedShape(id, "SHA224") == Some(FileReadParams)
  {
    CatalogEntryFound(id, 12, "SHA224");
  }

  lemma FileSHA256Shape(id: CommandId)
    requires id == File
    ensures FixedShape(id, "SHA256") == Some(FileReadParams)
  {
    CatalogEntryFound(id, 13, "SHA256");
  }

  lemma FileSHA384Shape(id: CommandId)
    requires id == File
    ensures FixedShape(id, "SHA384") == Some(FileReadParams)
  {
    CatalogEntryFound(id, 14, "SHA384");
  }

  lemma FileSHA512Shape(id: CommandId)
    requires id == File
    ensures FixedShape(id, "SHA512") == Some(FileReadParams)
  {
    CatalogEntryFound(id, 15, "SHA512");
  }

  lemma FileStringsShape(id: CommandId)
    requires id == File
    ensures FixedShape(id, "STRINGS") == Some(FileReadParams)
  {
    CatalogEntryFound(id, 16, "STRINGS");
  }

  /** The hashing subcommands of `file` and `file(STRINGS)` share the shape
      of `file(READ)`. */
  lemma FileReadShapes(id: CommandId)
    requires id == File
    ensures FixedShape(id, "READ") == Some(["filename", "variable"])
    ensures FixedShape(id, "MD5") == FixedShape(id, "READ")
    ensures FixedShape(id, "SHA1") == FixedShape(id, "READ")
    ensures FixedShape(id, "SHA224") == FixedShape(id, "READ")
    ensures FixedShape(id, "SHA256") == FixedShape(id, "READ")
    ensures FixedShape(id, "SHA384") == FixedShape(id, "READ")
    ensures FixedShape(id, "SHA512") == FixedShape(id, "READ")
    ensures FixedShape(id, "STRINGS") == FixedShape(id, "READ")
  {
    FileReadShape(id);
    FileMD5Shape(id);
    FileSHA1Shape(id);
    FileSHA224Shape(id);
    FileSHA256Shape(id);
    FileSHA384Shape(id);
    FileSHA512Shape(id);
    FileStringsShape(id);
  }

  /** `file(WRITE)` shares the shape of `file(APPEND)`. */
  lemma FileWriteShape(id: CommandId)
    requires id == File
    ensures FixedShape(id, "WRITE") == FixedShape(id, "APPEND") == Some(["filename", "message"])
  {
    CatalogEntryFound(id, 0, "APPEND");
    CatalogEntryFound(id, 20, "WRITE");
  }

  /** `cmake_policy(PUSH)` and `cmake_policy(POP)` take no parameters. */
  lemma PolicyStackShapes(id: CommandId)
    requires id == CMakePolicy
    ensures FixedShape(id, "PUSH") == FixedShape(id, "POP") == Some([])
  {
    CatalogEntryFound(id, 1, "POP");
    CatalogEntryFound(id, 2, "PUSH");
  }

  /** `install`, `define_property` and `set_property` have no fixed shape
      for any subcommand. */
  lemma OpenShapes(id: CommandId, subcommand: string)
    requires id == Install || id == DefineProperty || id == SetProperty
    ensures FixedShape(id, subcommand).None?
    ensures GetSubcommandParameters(id, subcommand).None?
  {
    var c := SubcommandsOf(id).value;
    if id == Install {
      assert c.shapes == InstallShapes;
    } else if id == DefineProperty {
      assert c.shapes == DefinePropertyShapes;
    } else {
      assert c.shapes == SetPropertyShapes;
    }
    assert forall k :: 0 <= k < |c.shapes| ==> c.shapes[k] == Open;
    AllOpenLookup(c, subcommand);
  }

  /** In a catalog without fixed shapes a lookup finds no fixed shape. */
  lemma AllOpenLookup(c: Catalog, key: string)
    requires forall k :: 0 <= k < |c.shapes| ==> c.shapes[k] == Open
    ensures Lookup(c, key).None? || Lookup(c, key) == Some(Open)
  {
  }

  /** `string(REGEX ...)` and `export(TARGETS ...)` have no fixed shape. */
  lemma RegexAndTargetsOpen(str: CommandId, exp: CommandId)
    requires str == String && exp == Export
    ensures FixedShape(str, "REGEX").None? && FixedShape(exp, "TARGETS").None?
  {
    StringRegexOpen(str);
    ExportTargetsOpen(exp);
  }

  lemma StringRegexOpen(id: CommandId)
    requires id == String
    ensures FixedShape(id, "REGEX").None?
  {
    CatalogEntryFound(id, 6, "REGEX");
  }

  lemma ExportTargetsOpen(id: CommandId)
    requires id == Export
    ensures FixedShape(id, "TARGETS").None?
  {
    CatalogEntryFound(id, 1, "TARGETS");
  }

  /** No `file` subcommand is spelled in lower case. */
  lemma LowerCaseGlobNotListed()
    ensures "glob" !in FileKeys
  {
    forall k | 0 <= k < |FileKeys| ensures FileKeys[k] != "glob" {
      assert FileKeys[k][0] != 'g';
    }
  }

  /** Lookups are case-sensitive: `file(glob ...)` gets no parameter tip. */
  lemma LookupIsCaseSensitive(id: CommandId, subcommand: string)
    requires id == File && subcommand == "glob"
    ensures FixedShape(id, subcommand).None?
    ensures GetSubcommandParameters(id, subcommand).None?
  {
    LowerCaseGlobNotListed();
  }
}
