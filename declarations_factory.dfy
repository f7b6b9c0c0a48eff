/** `CMakeDeclarationsFactory`: the list of candidates the editor offers
    inside a command's parameters, chosen by the command and by the
    parameters already typed before the trigger. */
module DeclarationsFactory {
  import opened Wrappers
  import opened Keywords
  import SubcommandMethods

  // ---------------------------------------------------------------------
  // Items and declarations objects
  // ---------------------------------------------------------------------

  /** `CMakeItemDeclarations.ItemType`: the kinds of items the factory
      adds, and `SourceFile` for the files a source list starts with. */
  datatype ItemType = Target | Command | Property | SourceFile

  datatype Item = Item(text: string, itemType: ItemType)

  /** The declarations class an object belongs to. The include files,
      packages, subdirectories and languages that the specialised classes
      find next to the edited file are theirs, not the factory's, and stay
      abstract. */
  datatype Kind =
    | ItemList
    | IncludeFiles(fileName: string)
    | Packages(fileName: string)
    | Subdirectories(fileName: string, requireCMakeLists: bool)
    | Languages(fileName: string)
    | SourceFiles(fileName: string)

  /** A declarations object as a value: its class and its items in order. */
  datatype Decls = Decls(kind: Kind, items: seq<Item>)

  /** The texts as items of one type. */
  function ItemsOf(texts: seq<string>, t: ItemType): (r: seq<Item>)
    ensures |r| == |texts|
    ensures forall i :: 0 <= i < |texts| ==> r[i] == Item(texts[i], t)
  {
    if texts == [] then [] else ItemsOf(texts[..|texts| - 1], t) + [Item(texts[|texts| - 1], t)]
  }

  /** `ExcludeItems`: the items, in order, without those whose text is
      excluded. */
  function Exclude(items: seq<Item>, excluded: seq<string>): (r: seq<Item>)
    ensures forall x :: x in r <==> x in items && x.text !in excluded
    ensures |r| <= |items|
  {
    if items == [] then []
    else
      var init := items[..|items| - 1];
      var last := items[|items| - 1];
      assert items == init + [last];
      if last.text in excluded then Exclude(init, excluded) else Exclude(init, excluded) + [last]
  }

  /** The exclusion keeps the order of the items: it distributes over
      concatenation. */
  lemma {:induction false} ExcludeConcat(a: seq<Item>, b: seq<Item>, excluded: seq<string>)
    ensures Exclude(a + b, excluded) == Exclude(a, excluded) + Exclude(b, excluded)
  {
    if b != [] {
      var init := b[..|b| - 1];
      ExcludeConcat(a, init, excluded);
      assert (a + b)[..|a + b| - 1] == a + init;
      assert (a + b)[|a + b| - 1] == b[|b| - 1];
    } else {
      assert a + b == a;
    }
  }

  function OrEmpty(s: Option<seq<string>>): seq<string>
  {
    if s.Some? then s.value else []
  }

  /** `Skip(1)`: all but the first element. */
  function SkipFirst(s: seq<string>): (r: seq<string>)
    ensures forall x :: x in r <==> exists k :: 1 <= k < |s| && s[k] == x
  {
    if s == [] then [] else s[1..]
  }

  /** `CMakeItemDeclarations`, the object a strategy builds. */
  class ItemDeclarations {
    var kind: Kind
    var items: seq<Item>

    constructor (kind: Kind, items: seq<Item>)
      ensures this.kind == kind && this.items == items
    {
      this.kind := kind;
      this.items := items;
    }

    function View(): Decls
      reads this
    {
      Decls(kind, items)
    }

    /** `AddItems`: the texts appended as items of the given type. */
    method AddItems(texts: seq<string>, t: ItemType)
      modifies this
      ensures kind == old(kind) && items == old(items) + ItemsOf(texts, t)
    {
      items := items + ItemsOf(texts, t);
    }

    /** `AddItem`: one item appended. */
    method AddItem(text: string, t: ItemType)
      modifies this
      ensures kind == old(kind) && items == old(items) + [Item(text, t)]
    {
      items := items + [Item(text, t)];
    }

    /** `ExcludeItems`: the items whose text is listed are dropped; no list
        drops nothing. */
    method ExcludeItems(excluded: Option<seq<string>>)
      modifies this
      ensures kind == old(kind) && items == Exclude(old(items), OrEmpty(excluded))
    {
      items := Exclude(items, OrEmpty(excluded));
    }
  }

  /** The object is there exactly when the value is, and holds it. */
  ghost predicate Realizes(d: Option<ItemDeclarations>, s: Option<Decls>)
    reads if d.Some? then {d.value} else {}
  {
    d.Some? == s.Some? && (d.Some? ==> d.value.View() == s.value)
  }

  // ---------------------------------------------------------------------
  // Collaborators
  // ---------------------------------------------------------------------

  /** `CMakePropertyType`: the objects properties belong to; the kinds
      without an object strategy are `OtherObject`. */
  datatype PropertyType = DirectoryObject | SourceObject | TargetObject | TestObject | OtherObject

  /** The queries the factory makes of `CMakeProperties`. */
  datatype Properties = Properties(
    propertyParameterIndex: CommandId -> int,
    objectParameterIndex: CommandId -> int,
    propertiesForCommand: CommandId -> Option<seq<string>>,
    propertyTypeFromCommand: CommandId -> PropertyType,
    propertyTypeKeywords: seq<string>,
    propertyTypeFromKeyword: string -> PropertyType,
    propertiesOfType: PropertyType -> seq<string>,
    isObjectRequired: PropertyType -> bool)

  /** What a strategy reads besides the command and the prior parameters:
      the edited file's name, its lines, the option that limits
      subdirectories to those with a `CMakeLists.txt`, the property
      registry, `CMakeParsing.ParseForTargetNames` (the flag asks for test
      names) and the files a source list starts with. */
  datatype Context = Context(
    fileName: string,
    lines: seq<string>,
    requireCMakeLists: bool,
    properties: Properties,
    targetNames: (seq<string>, bool) -> seq<string>,
    sourceFiles: string -> seq<string>)

  // ---------------------------------------------------------------------
  // The tables
  // ---------------------------------------------------------------------

  /** The factory methods, one per `Create*Declarations`. */
  datatype Strategy =
    | IncludeStrategy | PackageStrategy | SubdirectoryStrategy | LanguageStrategy
    | TargetStrategy | TestStrategy | SubcommandStrategy | SourceStrategy
    | GetXPropertyStrategy | SetXPropertyStrategy | GetPropertyStrategy

  /** The commands `_methods` lists when it is initialised. */
  const ExplicitCommands: set<CommandId> := {
    Include, FindPackage, AddSubdirectory, EnableLanguage, AddDependencies,
    TargetLinkLibraries, SetTargetProperties, SetSourceFilesProperties,
    SetTestsProperties, SetDirectoryProperties, GetTestProperty
  }

  /** The strategy `_methods` gives each of them. */
  function ExplicitStrategy(id: CommandId): Strategy
    requires id in ExplicitCommands
  {
    if id.Include? then IncludeStrategy
    else if id.FindPackage? then PackageStrategy
    else if id.AddSubdirectory? then SubdirectoryStrategy
    else if id.EnableLanguage? then LanguageStrategy
    else if id.AddDependencies? || id.TargetLinkLibraries? then TargetStrategy
    else if id.GetTestProperty? then GetXPropertyStrategy
    else SetXPropertyStrategy
  }

  /** `_methods` as initialised: the strategies after an opening
      parenthesis. */
  const ExplicitParenMethods: map<CommandId, Strategy> :=
    map id | id in ExplicitCommands :: ExplicitStrategy(id)

  /** The commands `_wsMethods` lists. */
  const WsCommands: set<CommandId> := {
    AddExecutable, AddLibrary, AddDependencies, GetTargetProperty,
    GetSourceFileProperty, GetTestProperty, GetDirectoryProperty, GetCMakeProperty,
    SetTargetProperties, SetSourceFilesProperties, SetTestsProperties,
    SetDirectoryProperties, GetProperty
  }

  /** The strategy `_wsMethods` gives each of them. */
  function WsStrategy(id: CommandId): Strategy
    requires id in WsCommands
  {
    if id.AddExecutable? || id.AddLibrary? then SourceStrategy
    else if id.AddDependencies? then TargetStrategy
    else if id.GetProperty? then GetPropertyStrategy
    else if id.SetTargetProperties? || id.SetSourceFilesProperties? ||
            id.SetTestsProperties? || id.SetDirectoryProperties? then SetXPropertyStrategy
    else GetXPropertyStrategy
  }

  /** `_wsMethods`: the strategies after whitespace. */
  const WsMethods: map<CommandId, Strategy> :=
    map id | id in WsCommands :: WsStrategy(id)

  /** `_propObjMethods`: the strategy listing the objects of a property
      type. */
  const PropObjMethods: map<PropertyType, Strategy> := map[
    DirectoryObject := SubdirectoryStrategy,
    SourceObject := SourceStrategy,
    TargetObject := TargetStrategy,
    TestObject := TestStrategy
  ]

  const AddExecutableKeywords: seq<string> := ["EXCLUDE_FROM_ALL", "MACOSX_BUNDLE", "WIN32"]

  const AddLibraryKeywords: seq<string> := ["EXCLUDE_FROM_ALL", "MODULE", "SHARED", "STATIC"]

  /** `_commandKeywords` */
  const CommandKeywords: map<CommandId, seq<string>> := map[
    AddExecutable := AddExecutableKeywords,
    AddLibrary := AddLibraryKeywords
  ]

  /** The table with the subcommand strategy written over the entries of
      the commands, one after the other. */
  function WithTriggers(m: map<CommandId, Strategy>, triggers: seq<CommandId>): map<CommandId, Strategy>
  {
    if triggers == [] then m
    else WithTriggers(m, triggers[..|triggers| - 1])[triggers[|triggers| - 1] := SubcommandStrategy]
  }

  /** `_methods` once the static constructor has run. */
  function ParenMethods(): map<CommandId, Strategy>
  {
    WithTriggers(ExplicitParenMethods, SubcommandMethods.GetMemberSelectionTriggers())
  }

  /** The static constructor: every command with subcommands gets the
      subcommand strategy in `_methods`. */
  method StaticConstructor() returns (methods: map<CommandId, Strategy>)
    ensures methods == ParenMethods()
  {
    methods := ExplicitParenMethods;
    var triggers := SubcommandMethods.GetMemberSelectionTriggers();
    for i := 0 to |triggers|
      invariant methods == WithTriggers(ExplicitParenMethods, triggers[..i])
    {
      assert triggers[..i + 1][..i] == triggers[..i];
      methods := methods[triggers[i] := SubcommandStrategy];
    }
    assert triggers[..|triggers|] == triggers;
  }

  lemma {:induction false} WithTriggersShape(m: map<CommandId, Strategy>, triggers: seq<CommandId>, id: CommandId)
    ensures id in WithTriggers(m, triggers) <==> id in m || id in triggers
    ensures id in triggers ==> WithTriggers(m, triggers)[id] == SubcommandStrategy
    ensures id in m && id !in triggers ==> WithTriggers(m, triggers)[id] == m[id]
  {
    if triggers != [] {
      var init := triggers[..|triggers| - 1];
      WithTriggersShape(m, init, id);
      assert triggers == init + [triggers[|triggers| - 1]];
    }
  }

  /** After the static constructor, `_methods` holds the eleven listed
      entries unchanged and the subcommand strategy for every command with
      subcommands, and nothing else. */
  lemma ParenMethodsShape(id: CommandId)
    ensures id in ParenMethods() <==> id in ExplicitParenMethods || SubcommandMethods.HasSubcommands(id)
    ensures SubcommandMethods.HasSubcommands(id) ==> ParenMethods()[id] == SubcommandStrategy
    ensures id in ExplicitParenMethods ==> ParenMethods()[id] == ExplicitParenMethods[id]
  {
    WithTriggersShape(ExplicitParenMethods, SubcommandMethods.GetMemberSelectionTriggers(), id);
    if id in ExplicitParenMethods {
      ExplicitHaveNoSubcommands(id);
    }
  }

  /** No command of the explicit entries takes subcommands. */
  lemma ExplicitHaveNoSubcommands(id: CommandId)
    requires id in ExplicitCommands
    ensures !SubcommandMethods.HasSubcommands(id)
  {
    ExplicitOutsideCatalog(id);
    SubcommandMethods.HasSubcommandsExactly(id);
  }

  lemma ExplicitOutsideCatalog(id: CommandId)
    requires id in ExplicitCommands
    ensures id !in SubcommandMethods.CommandsWithSubcommands
  {
  }

  /** `GetMemberSelectionTriggers`: the commands of `_methods`. */
  function GetMemberSelectionTriggers(): (r: set<CommandId>)
    ensures forall id :: id in r <==> id in ExplicitParenMethods || SubcommandMethods.HasSubcommands(id)
  {
    var m := ParenMethods();
    assert forall id :: id in m <==> id in ExplicitParenMethods || SubcommandMethods.HasSubcommands(id) by {
      forall id ensures id in m <==> id in ExplicitParenMethods || SubcommandMethods.HasSubcommands(id) {
        ParenMethodsShape(id);
      }
    }
    m.Keys
  }

  /** `GetWSMemberSelectionTriggers`: the commands of `_wsMethods`; unlike
      the parenthesis triggers it leaves out `target_link_libraries` and the
      commands with subcommands. */
  function GetWSMemberSelectionTriggers(): (r: set<CommandId>)
    ensures forall id :: id in r <==> id in WsMethods
    ensures TargetLinkLibraries !in r && AddDependencies in r
    ensures forall id :: SubcommandMethods.HasSubcommands(id) ==> id !in r
  {
    WsTriggers();
    WsMethods.Keys
  }

  lemma WsTriggers()
    ensures forall id :: SubcommandMethods.HasSubcommands(id) ==> id !in WsMethods
    ensures TargetLinkLibraries !in WsMethods && AddDependencies in WsMethods
  {
    forall id | id in WsMethods ensures !SubcommandMethods.HasSubcommands(id) {
      WsHaveNoSubcommands(id);
    }
  }

  /** No command of `_wsMethods` takes subcommands. */
  lemma WsHaveNoSubcommands(id: CommandId)
    requires id in WsCommands
    ensures !SubcommandMethods.HasSubcommands(id)
  {
    WsOutsideCatalog(id);
    SubcommandMethods.HasSubcommandsExactly(id);
  }

  lemma WsOutsideCatalog(id: CommandId)
    requires id in WsCommands
    ensures id !in SubcommandMethods.CommandsWithSubcommands
  {
  }

  // ---------------------------------------------------------------------
  // The strategies as values
  // ---------------------------------------------------------------------

  /** The only strategy that needs the prior parameters to be there is the
      source list of `add_executable` and `add_library`, which skips the
      first of them. */
  predicate SourceDefined(id: CommandId, priors: Option<seq<string>>)
  {
    id == AddExecutable || id == AddLibrary ==> priors.Some?
  }

  /** `CreateTargetDeclarations` (and `CreateTestDeclarations` when
      `tests`): the target (test) names of the file, less the prior
      parameters. */
  function TargetDecls(ctx: Context, priors: Option<seq<string>>, tests: bool): Decls
  {
    Decls(ItemList, Exclude(ItemsOf(ctx.targetNames(ctx.lines, tests), Target), OrEmpty(priors)))
  }

  /** `CreateSourceDeclarations`: the source files, then the command's
      keywords, then for `add_executable` and `add_library` all of it less
      the prior parameters after the first. */
  function SourceDecls(id: CommandId, ctx: Context, priors: Option<seq<string>>): Decls
    requires SourceDefined(id, priors)
  {
    var files := ItemsOf(ctx.sourceFiles(ctx.fileName), SourceFile);
    var listed := if id in CommandKeywords then files + ItemsOf(CommandKeywords[id], Command) else files;
    var items := if id == AddExecutable || id == AddLibrary then Exclude(listed, SkipFirst(priors.value)) else listed;
    Decls(SourceFiles(ctx.fileName), items)
  }

  /** `CreateSubcommandDeclarations`: the command's subcommands, none when
      it has no subcommands. */
  function SubcommandDecls(id: CommandId): (r: Option<Decls>)
    ensures r.None? <==> !SubcommandMethods.HasSubcommands(id)
    ensures r.Some? ==> r.value == Decls(ItemList, ItemsOf(SubcommandMethods.GetSubcommands(id).value, Command))
  {
    match SubcommandMethods.GetSubcommands(id)
    case None => None
    case Some(names) => Some(Decls(ItemList, ItemsOf(names, Command)))
  }

  lemma SubcommandDeclsOf(id: CommandId, subcommands: Option<seq<string>>)
    requires subcommands == SubcommandMethods.GetSubcommands(id)
    ensures subcommands.None? ==> SubcommandDecls(id).None?
    ensures subcommands.Some? ==> SubcommandDecls(id) == Some(Decls(ItemList, ItemsOf(subcommands.value, Command)))
  {
  }

  /** The strategies that call no other strategy and do not consult the
      subcommand catalogs. */
  predicate IsLeaf(s: Strategy)
  {
    !(s.GetXPropertyStrategy? || s.SetXPropertyStrategy? || s.GetPropertyStrategy? || s.SubcommandStrategy?)
  }

  function LeafDecls(s: Strategy, id: CommandId, ctx: Context, priors: Option<seq<string>>): Option<Decls>
    requires IsLeaf(s) && SourceDefined(id, priors)
  {
    if s == IncludeStrategy then Some(Decls(IncludeFiles(ctx.fileName), []))
    else if s == PackageStrategy then Some(Decls(Packages(ctx.fileName), []))
    else if s == SubdirectoryStrategy then Some(Decls(Subdirectories(ctx.fileName, ctx.requireCMakeLists), []))
    else if s == LanguageStrategy then Some(Decls(Languages(ctx.fileName), []))
    else if s == TargetStrategy then Some(TargetDecls(ctx, priors, false))
    else if s == TestStrategy then Some(TargetDecls(ctx, priors, true))
    else Some(SourceDecls(id, ctx, priors))
  }

  /** `_propObjMethods[type](...)`: the objects of a property type, none
      for a type without an object strategy. */
  function ObjectDecls(t: PropertyType, id: CommandId, ctx: Context, priors: Option<seq<string>>): (r: Option<Decls>)
    requires SourceDefined(id, priors)
    ensures r.Some? <==> t in PropObjMethods
  {
    if t in PropObjMethods then LeafDecls(PropObjMethods[t], id, ctx, priors) else None
  }

  /** The number of prior parameters, 0 when there are none. */
  function PriorCount(priors: Option<seq<string>>): nat
  {
    if priors.Some? then |priors.value| else 0
  }

  /** `CreateGetXPropertyDeclarations`, tried in the source's order. */
  function GetXPropertyDecls(id: CommandId, ctx: Context, priors: Option<seq<string>>): Option<Decls>
    requires SourceDefined(id, priors)
  {
    var count := PriorCount(priors);
    var props := ctx.properties;
    if count == props.propertyParameterIndex(id) then
      match props.propertiesForCommand(id)
      case None => None
      case Some(ps) =>
        Some(Decls(ItemList, ItemsOf(ps, Property) +
          (if id == GetDirectoryProperty then [Item("DIRECTORY", Command)] else [])))
    else if count == props.objectParameterIndex(id) then
      ObjectDecls(props.propertyTypeFromCommand(id), id, ctx, priors)
    else if id == GetDirectoryProperty && count == 2 && priors.value[1] == "DIRECTORY" then
      Some(Decls(Subdirectories(ctx.fileName, ctx.requireCMakeLists), []))
    else if id == GetDirectoryProperty && count == 3 && priors.value[1] == "DIRECTORY" then
      match props.propertiesForCommand(GetDirectoryProperty)
      case None => None
      case Some(ps) => Some(Decls(ItemList, ItemsOf(ps, Property)))
    else None
  }

  /** The object list a property command starts from: the objects of its
      type, or an empty list for a type without an object strategy. */
  function ObjectsOrEmpty(t: PropertyType, id: CommandId, ctx: Context, priors: Option<seq<string>>): Decls
    requires SourceDefined(id, priors)
  {
    if t in PropObjMethods then ObjectDecls(t, id, ctx, priors).value else Decls(ItemList, [])
  }

  function WithItem(d: Decls, text: string, t: ItemType): Decls
  {
    d.(items := d.items + [Item(text, t)])
  }

  /** `CreateSetXPropertyDeclarations` once `PROPERTIES` is the parameter
      at `index`: the properties when an odd number of parameters starts
      there, nothing otherwise. */
  function SetXAfterKeyword(id: CommandId, ctx: Context, p: seq<string>, index: int): Option<Decls>
  {
    if (|p| - index) % 2 == 1 && ctx.properties.propertiesForCommand(id).Some? then
      Some(Decls(ItemList, ItemsOf(ctx.properties.propertiesForCommand(id).value, Property)))
    else None
  }

  /** `CreateSetXPropertyDeclarations` before any `PROPERTIES`: the objects,
      and the keyword once there is a parameter or for the two commands that
      take none before it. */
  function SetXObjects(id: CommandId, ctx: Context, priors: Option<seq<string>>): Decls
    requires SourceDefined(id, priors)
  {
    var objects := ObjectsOrEmpty(ctx.properties.propertyTypeFromCommand(id), id, ctx, priors);
    if PriorCount(priors) > 0 || id == SetSourceFilesProperties || id == SetDirectoryProperties
    then WithItem(objects, "PROPERTIES", Command)
    else objects
  }

  /** The position of the first `PROPERTIES` among the prior parameters,
      -1 when there is none. */
  function PropertiesIndex(priors: Option<seq<string>>): int
  {
    if priors.Some? then SubcommandMethods.IndexOf(priors.value, "PROPERTIES") else -1
  }

  /** `CreateSetXPropertyDeclarations`. */
  function SetXPropertyDecls(id: CommandId, ctx: Context, priors: Option<seq<string>>): Option<Decls>
    requires SourceDefined(id, priors)
  {
    var index := PropertiesIndex(priors);
    if index >= 0 then SetXAfterKeyword(id, ctx, priors.value, index)
    else Some(SetXObjects(id, ctx, priors))
  }

  /** `CreateGetPropertyDeclarations`. */
  function GetPropertyDecls(id: CommandId, ctx: Context, priors: Option<seq<string>>): Option<Decls>
    requires SourceDefined(id, priors)
  {
    if priors.None? then None
    else
      var p := priors.value;
      var props := ctx.properties;
      if |p| == 1 then Some(Decls(ItemList, ItemsOf(props.propertyTypeKeywords, Command)))
      else if |p| > 2 && p[|p| - 1] == "PROPERTY" then
        Some(Decls(ItemList, ItemsOf(props.propertiesOfType(props.propertyTypeFromKeyword(p[1])), Property)))
      else if |p| == 2 then
        var t := props.propertyTypeFromKeyword(p[1]);
        var objects := ObjectsOrEmpty(t, id, ctx, priors);
        if !props.isObjectRequired(t) then Some(WithItem(objects, "PROPERTY", Command)) else Some(objects)
      else if |p| == 3 then Some(Decls(ItemList, [Item("PROPERTY", Command)]))
      else None
  }

  /** Running a factory method. */
  function Run(s: Strategy, id: CommandId, ctx: Context, priors: Option<seq<string>>): Option<Decls>
    requires SourceDefined(id, priors)
  {
    if IsLeaf(s) then LeafDecls(s, id, ctx, priors)
    else if s == SubcommandStrategy then SubcommandDecls(id)
    else if s == GetXPropertyStrategy then GetXPropertyDecls(id, ctx, priors)
    else if s == SetXPropertyStrategy then SetXPropertyDecls(id, ctx, priors)
    else GetPropertyDecls(id, ctx, priors)
  }

  /** The table `CreateDeclarations` consults: `_methods` after an opening
      parenthesis (no prior parameters), `_wsMethods` after whitespace. */
  function Table(priors: Option<seq<string>>): map<CommandId, Strategy>
  {
    if priors.None? then ParenMethods() else WsMethods
  }

  lemma TablesHaveNoSourceList(id: CommandId)
    ensures id in ParenMethods() ==> id != AddExecutable && id != AddLibrary
  {
    if id == AddExecutable || id == AddLibrary {
      ParenMethodsShape(id);
      SourceListsOutsideParen(id);
    }
  }

  lemma SourceListsOutsideParen(id: CommandId)
    requires id == AddExecutable || id == AddLibrary
    ensures id !in ExplicitCommands && !SubcommandMethods.HasSubcommands(id)
  {
    SubcommandMethods.HasSubcommandsExactly(id);
  }

  /** `CreateDeclarations` as a value. */
  function CreateDecls(id: CommandId, ctx: Context, priors: Option<seq<string>>): (r: Option<Decls>)
    ensures id !in Table(priors) ==> r.None?
  {
    TablesHaveNoSourceList(id);
    if id !in Table(priors) then None else Run(Table(priors)[id], id, ctx, priors)
  }

  // ---------------------------------------------------------------------
  // The strategies, building the object step by step
  // ---------------------------------------------------------------------

  method CreateIncludeDeclarations(id: CommandId, ctx: Context, priors: Option<seq<string>>)
    returns (d: Option<ItemDeclarations>)
    ensures d.Some? ==> fresh(d.value)
    ensures Realizes(d, Some(Decls(IncludeFiles(ctx.fileName), [])))
  {
    var decls := new ItemDeclarations(IncludeFiles(ctx.fileName), []);
    d := Some(decls);
  }

  method CreatePackageDeclarations(id: CommandId, ctx: Context, priors: Option<seq<string>>)
    returns (d: Option<ItemDeclarations>)
    ensures d.Some? ==> fresh(d.value)
    ensures Realizes(d, Some(Decls(Packages(ctx.fileName), [])))
  {
    var decls := new ItemDeclarations(Packages(ctx.fileName), []);
    d := Some(decls);
  }

  method CreateSubdirectoryDeclarations(id: CommandId, ctx: Context, priors: Option<seq<string>>)
    returns (d: Option<ItemDeclarations>)
    ensures d.Some? ==> fresh(d.value)
    ensures Realizes(d, Some(Decls(Subdirectories(ctx.fileName, ctx.requireCMakeLists), [])))
  {
    var decls := new ItemDeclarations(Subdirectories(ctx.fileName, ctx.requireCMakeLists), []);
    d := Some(decls);
  }

  method CreateLanguageDeclarations(id: CommandId, ctx: Context, priors: Option<seq<string>>)
    returns (d: Option<ItemDeclarations>)
    ensures d.Some? ==> fresh(d.value)
    ensures Realizes(d, Some(Decls(Languages(ctx.fileName), [])))
  {
    var decls := new ItemDeclarations(Languages(ctx.fileName), []);
    d := Some(decls);
  }

  method CreateTargetDeclarations(id: CommandId, ctx: Context, priors: Option<seq<string>>)
    returns (d: Option<ItemDeclarations>)
    ensures d.Some? ==> fresh(d.value)
    ensures Realizes(d, Some(TargetDecls(ctx, priors, false)))
  {
    var targets := ctx.targetNames(ctx.lines, false);
    var decls := new ItemDeclarations(ItemList, []);
    decls.AddItems(targets, Target);
    assert decls.items == ItemsOf(targets, Target);
    decls.ExcludeItems(priors);
    d := Some(decls);
  }

  method CreateTestDeclarations(id: CommandId, ctx: Context, priors: Option<seq<string>>)
    returns (d: Option<ItemDeclarations>)
    ensures d.Some? ==> fresh(d.value)
    ensures Realizes(d, Some(TargetDecls(ctx, priors, true)))
  {
    var tests := ctx.targetNames(ctx.lines, true);
    var decls := new ItemDeclarations(ItemList, []);
    decls.AddItems(tests, Target);
    assert decls.items == ItemsOf(tests, Target);
    decls.ExcludeItems(priors);
    d := Some(decls);
  }

  method CreateSubcommandDeclarations(id: CommandId, ctx: Context, priors: Option<seq<string>>)
    returns (d: Option<ItemDeclarations>)
    ensures d.Some? ==> fresh(d.value)
    ensures Realizes(d, SubcommandDecls(id))
  {
    var subcommands := SubcommandMethods.GetSubcommands(id);
    SubcommandDeclsOf(id, subcommands);
    if subcommands.None? {
      return None;
    }
    var decls := NewItemList(subcommands.value, Command);
    d := Some(decls);
  }

  /** A fresh item list holding the given texts. */
  method NewItemList(texts: seq<string>, t: ItemType) returns (decls: ItemDeclarations)
    ensures fresh(decls)
    ensures decls.View() == Decls(ItemList, ItemsOf(texts, t))
  {
    decls := new ItemDeclarations(ItemList, []);
    decls.AddItems(texts, t);
  }

  method CreateSourceDeclarations(id: CommandId, ctx: Context, priors: Option<seq<string>>)
    returns (d: Option<ItemDeclarations>)
    requires SourceDefined(id, priors)
    ensures d.Some? ==> fresh(d.value)
    ensures Realizes(d, Some(SourceDecls(id, ctx, priors)))
  {
    var decls := new ItemDeclarations(SourceFiles(ctx.fileName), ItemsOf(ctx.sourceFiles(ctx.fileName), SourceFile));
    if id in CommandKeywords {
      decls.AddItems(CommandKeywords[id], Command);
    }
    if id == AddExecutable || id == AddLibrary {
      decls.ExcludeItems(Some(SkipFirst(priors.value)));
    }
    d := Some(decls);
  }

  /** Calling a factory method that calls no other. */
  method RunLeaf(s: Strategy, id: CommandId, ctx: Context, priors: Option<seq<string>>)
    returns (d: Option<ItemDeclarations>)
    requires IsLeaf(s) && SourceDefined(id, priors)
    ensures d.Some? ==> fresh(d.value)
    ensures Realizes(d, LeafDecls(s, id, ctx, priors))
  {
    if s == IncludeStrategy {
      d := CreateIncludeDeclarations(id, ctx, priors);
    } else if s == PackageStrategy {
      d := CreatePackageDeclarations(id, ctx, priors);
    } else if s == SubdirectoryStrategy {
      d := CreateSubdirectoryDeclarations(id, ctx, priors);
    } else if s == LanguageStrategy {
      d := CreateLanguageDeclarations(id, ctx, priors);
    } else if s == TargetStrategy {
      d := CreateTargetDeclarations(id, ctx, priors);
    } else if s == TestStrategy {
      d := CreateTestDeclarations(id, ctx, priors);
    } else {
      d := CreateSourceDeclarations(id, ctx, priors);
    }
  }

  /** `_propObjMethods[type](...)`, none for a type without an entry. */
  method CreateObjectDeclarations(t: PropertyType, id: CommandId, ctx: Context, priors: Option<seq<string>>)
    returns (d: Option<ItemDeclarations>)
    requires SourceDefined(id, priors)
    ensures d.Some? ==> fresh(d.value)
    ensures Realizes(d, ObjectDecls(t, id, ctx, priors))
  {
    d := None;
    if t in PropObjMethods {
      d := RunLeaf(PropObjMethods[t], id, ctx, priors);
    }
  }

  /** A new list holding the properties. */
  method NewPropertyList(properties: seq<string>) returns (decls: ItemDeclarations)
    ensures fresh(decls)
    ensures decls.View() == Decls(ItemList, ItemsOf(properties, Property))
  {
    decls := new ItemDeclarations(ItemList, []);
    decls.AddItems(properties, Property);
    assert decls.items == ItemsOf(properties, Property);
  }

  /** The object list `CreateSetXPropertyDeclarations` and
      `CreateGetPropertyDeclarations` start from: `_propObjMethods[type](...)`
      when the type has an entry, a new empty list otherwise. */
  method CreateObjectsOrEmpty(t: PropertyType, id: CommandId, ctx: Context, priors: Option<seq<string>>)
    returns (decls: ItemDeclarations)
    requires SourceDefined(id, priors)
    ensures fresh(decls)
    ensures decls.View() == ObjectsOrEmpty(t, id, ctx, priors)
  {
    if t in PropObjMethods {
      var objects := CreateObjectDeclarations(t, id, ctx, priors);
      decls := objects.value;
    } else {
      decls := new ItemDeclarations(ItemList, []);
    }
  }

  method CreateGetXPropertyDeclarations(id: CommandId, ctx: Context, priors: Option<seq<string>>)
    returns (d: Option<ItemDeclarations>)
    requires SourceDefined(id, priors)
    ensures d.Some? ==> fresh(d.value)
    ensures Realizes(d, GetXPropertyDecls(id, ctx, priors))
  {
    var props := ctx.properties;
    var priorParameterCount := PriorCount(priors);
    d := None;
    if priorParameterCount == props.propertyParameterIndex(id) {
      var properties := props.propertiesForCommand(id);
      if properties.Some? {
        var decls := NewPropertyList(properties.value);
        if id == GetDirectoryProperty {
          decls.AddItem("DIRECTORY", Command);
        }
        d := Some(decls);
      }
    } else if priorParameterCount == props.objectParameterIndex(id) {
      d := CreateObjectDeclarations(props.propertyTypeFromCommand(id), id, ctx, priors);
    } else if id == GetDirectoryProperty && priorParameterCount == 2 && priors.value[1] == "DIRECTORY" {
      d := CreateSubdirectoryDeclarations(id, ctx, priors);
    } else if id == GetDirectoryProperty && priorParameterCount == 3 && priors.value[1] == "DIRECTORY" {
      var properties := props.propertiesForCommand(GetDirectoryProperty);
      if properties.Some? {
        var decls := NewPropertyList(properties.value);
        d := Some(decls);
      }
    }
  }

  method CreateSetXPropertyDeclarations(id: CommandId, ctx: Context, priors: Option<seq<string>>)
    returns (d: Option<ItemDeclarations>)
    requires SourceDefined(id, priors)
    ensures d.Some? ==> fresh(d.value)
    ensures PropertiesIndex(priors) >= 0 ==> Realizes(d, SetXAfterKeyword(id, ctx, priors.value, PropertiesIndex(priors)))
    ensures PropertiesIndex(priors) < 0 ==> Realizes(d, Some(SetXObjects(id, ctx, priors)))
  {
    d := None;
    var index := if priors.Some? then SubcommandMethods.IndexOf(priors.value, "PROPERTIES") else -1;
    var afterPropsKeyword := index >= 0;
    if afterPropsKeyword {
      var properties := ctx.properties.propertiesForCommand(id);
      if (|priors.value| - index) % 2 == 1 && properties.Some? {
        var decls := NewPropertyList(properties.value);
        d := Some(decls);
      }
    } else {
      var decls := CreatePropertyObjects(id, ctx, priors);
      d := Some(decls);
    }
  }

  /** What `CreateSetXPropertyDeclarations` does before any `PROPERTIES`:
      the objects, then the keyword when a parameter precedes it or the
      command may start with it. */
  method CreatePropertyObjects(id: CommandId, ctx: Context, priors: Option<seq<string>>)
    returns (decls: ItemDeclarations)
    requires SourceDefined(id, priors)
    ensures fresh(decls)
    ensures decls.View() == SetXObjects(id, ctx, priors)
  {
    ghost var objects := ObjectsOrEmpty(ctx.properties.propertyTypeFromCommand(id), id, ctx, priors);
    assert SetXObjects(id, ctx, priors) ==
      if PriorCount(priors) > 0 || id == SetSourceFilesProperties || id == SetDirectoryProperties
      then WithItem(objects, "PROPERTIES", Command) else objects;
    decls := CreateObjectsOrEmpty(ctx.properties.propertyTypeFromCommand(id), id, ctx, priors);
    if (priors.Some? && |priors.value| > 0) || id == SetSourceFilesProperties || id == SetDirectoryProperties {
      decls.AddItem("PROPERTIES", Command);
    }
  }

  method CreateGetPropertyDeclarations(id: CommandId, ctx: Context, priors: Option<seq<string>>)
    returns (d: Option<ItemDeclarations>)
    requires SourceDefined(id, priors)
    ensures d.Some? ==> fresh(d.value)
    ensures Realizes(d, GetPropertyDecls(id, ctx, priors))
  {
    var props := ctx.properties;
    d := None;
    if priors.Some? {
      var p := priors.value;
      if |p| == 1 {
        var decls := new ItemDeclarations(ItemList, []);
        decls.AddItems(props.propertyTypeKeywords, Command);
        d := Some(decls);
      } else if |p| > 2 && p[|p| - 1] == "PROPERTY" {
        var properties := props.propertiesOfType(props.propertyTypeFromKeyword(p[1]));
        var decls := NewPropertyList(properties);
        d := Some(decls);
      } else if |p| == 2 {
        var t := props.propertyTypeFromKeyword(p[1]);
        var decls := CreateObjectsOrEmpty(t, id, ctx, priors);
        if !props.isObjectRequired(t) {
          decls.AddItem("PROPERTY", Command);
        }
        d := Some(decls);
      } else if |p| == 3 {
        var decls := new ItemDeclarations(ItemList, []);
        decls.AddItem("PROPERTY", Command);
        d := Some(decls);
      }
    }
  }

  /** Calling a factory method. */
  method RunStrategy(s: Strategy, id: CommandId, ctx: Context, priors: Option<seq<string>>)
    returns (d: Option<ItemDeclarations>)
    requires SourceDefined(id, priors)
    ensures d.Some? ==> fresh(d.value)
    ensures Realizes(d, Run(s, id, ctx, priors))
  {
    if IsLeaf(s) {
      d := RunLeaf(s, id, ctx, priors);
    } else if s == SubcommandStrategy {
      d := CreateSubcommandDeclarations(id, ctx, priors);
    } else if s == GetXPropertyStrategy {
      d := CreateGetXPropertyDeclarations(id, ctx, priors);
    } else if s == SetXPropertyStrategy {
      d := CreateSetXPropertyDeclarations(id, ctx, priors);
    } else {
      d := CreateGetPropertyDeclarations(id, ctx, priors);
    }
  }

  /** `CreateDeclarations`: the factory method of the command in the table
      for the trigger, none for a command that is not in it. */
  method CreateDeclarations(id: CommandId, ctx: Context, priors: Option<seq<string>>)
    returns (d: Option<ItemDeclarations>)
    ensures d.Some? ==> fresh(d.value)
    ensures Realizes(d, CreateDecls(id, ctx, priors))
  {
    var table := if priors.None? then ParenMethods() else WsMethods;
    if id !in table {
      return None;
    }
    TablesHaveNoSourceList(id);
    d := RunStrategy(table[id], id, ctx, priors);
  }
}
