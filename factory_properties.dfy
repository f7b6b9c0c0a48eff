/** What the lists `CMakeDeclarationsFactory` builds contain, proved of the
    strategies as values. */
module FactoryProperties {
  import opened Wrappers
  import opened Keywords
  import SubcommandMethods
  import opened DeclarationsFactory

  /** An item is in the list made of some texts exactly when it has the
      list's type and its text is one of them. */
  lemma InItemsOf(texts: seq<string>, t: ItemType, x: Item)
    ensures x in ItemsOf(texts, t) <==> x.itemType == t && x.text in texts
  {
    var r := ItemsOf(texts, t);
    if x in r {
      var i :| 0 <= i < |r| && r[i] == x;
      assert texts[i] == x.text;
    }
    if x.itemType == t && x.text in texts {
      var i :| 0 <= i < |texts| && texts[i] == x.text;
      assert r[i] == x;
    }
  }

  /** The target (test) list: the names of the file that are not already
      among the prior parameters, and only those. */
  lemma TargetListExcludesPriors(ctx: Context, priors: Option<seq<string>>, tests: bool)
    ensures TargetDecls(ctx, priors, tests).kind == ItemList
    ensures forall x :: x in TargetDecls(ctx, priors, tests).items <==>
      x.itemType == Target && x.text in ctx.targetNames(ctx.lines, tests) && x.text !in OrEmpty(priors)
  {
    var names := ctx.targetNames(ctx.lines, tests);
    forall x: Item
      ensures x in ItemsOf(names, Target) <==> x.itemType == Target && x.text in names
    {
      InItemsOf(names, Target, x);
    }
  }

  /** The source list: the files and the command's keywords; for
      `add_executable` and `add_library` less every prior parameter but the
      first, which is the target's name. */
  lemma SourceListShape(id: CommandId, ctx: Context, priors: Option<seq<string>>)
    requires SourceDefined(id, priors)
    ensures SourceDecls(id, ctx, priors).kind == SourceFiles(ctx.fileName)
    ensures id != AddExecutable && id != AddLibrary ==>
      SourceDecls(id, ctx, priors).items == ItemsOf(ctx.sourceFiles(ctx.fileName), SourceFile)
    ensures id == AddExecutable || id == AddLibrary ==>
      forall x :: x in SourceDecls(id, ctx, priors).items <==>
        ((x.itemType == SourceFile && x.text in ctx.sourceFiles(ctx.fileName)) ||
         (x.itemType == Command && x.text in CommandKeywords[id])) &&
        forall k :: 1 <= k < |priors.value| ==> priors.value[k] != x.text
  {
    if id == AddExecutable || id == AddLibrary {
      var files := ItemsOf(ctx.sourceFiles(ctx.fileName), SourceFile);
      var keywords := ItemsOf(CommandKeywords[id], Command);
      forall x: Item
        ensures x in files + keywords <==>
          (x.itemType == SourceFile && x.text in ctx.sourceFiles(ctx.fileName)) ||
          (x.itemType == Command && x.text in CommandKeywords[id])
      {
        InItemsOf(ctx.sourceFiles(ctx.fileName), SourceFile, x);
        InItemsOf(CommandKeywords[id], Command, x);
      }
    }
  }

  /** The keywords `add_executable` and `add_library` take. */
  predicate IsCommandKeyword(text: string)
  {
    text in AddExecutableKeywords || text in AddLibraryKeywords
  }

  /** A source list holds no keyword but the command's own. */
  lemma SourceListLacks(keyword: string, id: CommandId, ctx: Context, priors: Option<seq<string>>)
    requires SourceDefined(id, priors)
    requires !IsCommandKeyword(keyword)
    ensures Item(keyword, Command) !in SourceDecls(id, ctx, priors).items
  {
    SourceListShape(id, ctx, priors);
    InItemsOf(ctx.sourceFiles(ctx.fileName), SourceFile, Item(keyword, Command));
  }

  /** A target list holds no keyword at all. */
  lemma TargetListLacks(keyword: string, ctx: Context, priors: Option<seq<string>>, tests: bool)
    ensures Item(keyword, Command) !in TargetDecls(ctx, priors, tests).items
  {
    InItemsOf(ctx.targetNames(ctx.lines, tests), Target, Item(keyword, Command));
  }

  lemma SourceObjects(id: CommandId, ctx: Context, priors: Option<seq<string>>)
    requires SourceDefined(id, priors)
    ensures ObjectsOrEmpty(SourceObject, id, ctx, priors) == SourceDecls(id, ctx, priors)
  {
    assert PropObjMethods[SourceObject] == SourceStrategy;
  }

  /** An object list holds no keyword but those of `add_executable` and
      `add_library`. */
  lemma ObjectsLack(keyword: string, t: PropertyType, id: CommandId, ctx: Context, priors: Option<seq<string>>)
    requires SourceDefined(id, priors)
    requires !IsCommandKeyword(keyword)
    ensures Item(keyword, Command) !in ObjectsOrEmpty(t, id, ctx, priors).items
  {
    if t == SourceObject {
      SourceObjects(id, ctx, priors);
      SourceListLacks(keyword, id, ctx, priors);
    } else if t == TargetObject || t == TestObject {
      TargetListLacks(keyword, ctx, priors, t == TestObject);
    }
  }

  /** Neither keyword the property strategies add is one of a command's
      own keywords, so an object list never holds it. */
  lemma ObjectsLackPropertyKeywords(t: PropertyType, id: CommandId, ctx: Context, priors: Option<seq<string>>)
    requires SourceDefined(id, priors)
    ensures Item("PROPERTIES", Command) !in ObjectsOrEmpty(t, id, ctx, priors).items
    ensures Item("PROPERTY", Command) !in ObjectsOrEmpty(t, id, ctx, priors).items
  {
    ObjectsLack("PROPERTIES", t, id, ctx, priors);
    ObjectsLack("PROPERTY", t, id, ctx, priors);
  }

  /** `set_*_properties` once `PROPERTIES` has been typed (its first
      occurrence at `i`): property names exactly when an odd number of
      parameters starts at the keyword, so that the next one is a name and
      not a value. */
  lemma SetXAfterProperties(id: CommandId, ctx: Context, p: seq<string>, i: int)
    requires 0 <= i < |p| && p[i] == "PROPERTIES"
    requires forall j :: 0 <= j < i ==> p[j] != "PROPERTIES"
    requires SourceDefined(id, Some(p))
    ensures SetXPropertyDecls(id, ctx, Some(p)).Some? <==>
      (|p| - i) % 2 == 1 && ctx.properties.propertiesForCommand(id).Some?
    ensures SetXPropertyDecls(id, ctx, Some(p)).Some? ==>
      SetXPropertyDecls(id, ctx, Some(p)).value ==
        Decls(ItemList, ItemsOf(ctx.properties.propertiesForCommand(id).value, Property))
  {
    var index := SubcommandMethods.IndexOf(p, "PROPERTIES");
    assert index == i;
  }

  /** `set_*_properties` before `PROPERTIES`: the objects of the command's
      type, followed by the keyword exactly when a parameter has been typed
      or the command (`set_source_files_properties`,
      `set_directory_properties`) may start with it. */
  lemma SetXBeforeProperties(id: CommandId, ctx: Context, priors: Option<seq<string>>)
    requires SourceDefined(id, priors)
    requires priors.Some? ==> "PROPERTIES" !in priors.value
    ensures SetXPropertyDecls(id, ctx, priors).Some?
    ensures
      var objects := ObjectsOrEmpty(ctx.properties.propertyTypeFromCommand(id), id, ctx, priors);
      var r := SetXPropertyDecls(id, ctx, priors).value;
      r.kind == objects.kind && objects.items <= r.items && |r.items| <= |objects.items| + 1 &&
      (Item("PROPERTIES", Command) in r.items <==>
        PriorCount(priors) > 0 || id == SetSourceFilesProperties || id == SetDirectoryProperties)
  {
    var t := ctx.properties.propertyTypeFromCommand(id);
    ObjectsLackPropertyKeywords(t, id, ctx, priors);
    var objects := ObjectsOrEmpty(t, id, ctx, priors);
    assert objects.items <= objects.items + [Item("PROPERTIES", Command)];
  }

  /** `get_*_property`: at the property's position the command's
      properties (and `DIRECTORY` for `get_directory_property`), at the
      object's position the objects, and past them only the two
      `get_directory_property(<var> DIRECTORY <dir> <prop>)` positions:
      the subdirectories, then the directory properties. */
  lemma GetXPropertyCases(id: CommandId, ctx: Context, priors: Option<seq<string>>)
    requires SourceDefined(id, priors)
    ensures
      var props := ctx.properties;
      var count := PriorCount(priors);
      var r := GetXPropertyDecls(id, ctx, priors);
      (count == props.propertyParameterIndex(id) ==>
        (r.Some? <==> props.propertiesForCommand(id).Some?) &&
        (r.Some? ==> (r.value.kind == ItemList &&
          forall x :: x in r.value.items <==>
            (x.itemType == Property && x.text in props.propertiesForCommand(id).value) ||
            (id == GetDirectoryProperty && x == Item("DIRECTORY", Command))))) &&
      (count != props.propertyParameterIndex(id) && count == props.objectParameterIndex(id) ==>
        (r.Some? <==> props.propertyTypeFromCommand(id) in PropObjMethods)) &&
      (count != props.propertyParameterIndex(id) && count != props.objectParameterIndex(id) ==>
        (r.Some? ==> id == GetDirectoryProperty && priors.Some? && 2 <= count <= 3 && priors.value[1] == "DIRECTORY") &&
        (id == GetDirectoryProperty && count == 2 && priors.value[1] == "DIRECTORY" ==>
          r == Some(Decls(Subdirectories(ctx.fileName, ctx.requireCMakeLists), []))) &&
        (id == GetDirectoryProperty && count == 3 && priors.value[1] == "DIRECTORY" ==>
          (r.Some? <==> props.propertiesForCommand(id).Some?) &&
          (r.Some? ==> (r.value.kind == ItemList &&
            forall x :: x in r.value.items <==>
              x.itemType == Property && x.text in props.propertiesForCommand(id).value))))
  {
    var props := ctx.properties;
    if id == GetDirectoryProperty && props.propertiesForCommand(id).Some? {
      var ps := props.propertiesForCommand(id).value;
      forall x: Item
        ensures x in ItemsOf(ps, Property) <==> x.itemType == Property && x.text in ps
      {
        InItemsOf(ps, Property, x);
      }
    }
    if PriorCount(priors) == props.propertyParameterIndex(id) && props.propertiesForCommand(id).Some? {
      var ps := props.propertiesForCommand(id).value;
      var extra := if id == GetDirectoryProperty then [Item("DIRECTORY", Command)] else [];
      forall x: Item
        ensures x in ItemsOf(ps, Property) + extra <==>
          (x.itemType == Property && x.text in ps) || x in extra
      {
        InItemsOf(ps, Property, x);
      }
    }
  }

  /** `get_property`: after the scope keyword the objects of that scope
      (and `PROPERTY` when the scope needs no object), then `PROPERTY`,
      then after `PROPERTY` the properties of the scope; nothing before the
      scope keyword is typed or once more than three parameters are there
      without `PROPERTY` last. */
  lemma GetPropertyCases(id: CommandId, ctx: Context, priors: Option<seq<string>>)
    requires SourceDefined(id, priors)
    ensures
      var props := ctx.properties;
      var r := GetPropertyDecls(id, ctx, priors);
      (r.None? <==> (priors.None? || |priors.value| == 0 ||
        (|priors.value| > 3 && priors.value[|priors.value| - 1] != "PROPERTY"))) &&
      (priors.Some? && |priors.value| == 1 ==>
        r == Some(Decls(ItemList, ItemsOf(props.propertyTypeKeywords, Command)))) &&
      (priors.Some? && |priors.value| > 2 && priors.value[|priors.value| - 1] == "PROPERTY" ==>
        forall x :: x in r.value.items <==>
          x.itemType == Property &&
          x.text in props.propertiesOfType(props.propertyTypeFromKeyword(priors.value[1]))) &&
      (priors.Some? && |priors.value| == 2 ==>
        (Item("PROPERTY", Command) in r.value.items <==>
          !props.isObjectRequired(props.propertyTypeFromKeyword(priors.value[1])))) &&
      (priors.Some? && |priors.value| == 3 && priors.value[2] != "PROPERTY" ==>
        r == Some(Decls(ItemList, [Item("PROPERTY", Command)])))
  {
    var props := ctx.properties;
    if priors.Some? && |priors.value| > 2 && priors.value[|priors.value| - 1] == "PROPERTY" {
      var ps := props.propertiesOfType(props.propertyTypeFromKeyword(priors.value[1]));
      forall x: Item
        ensures x in ItemsOf(ps, Property) <==> x.itemType == Property && x.text in ps
      {
        InItemsOf(ps, Property, x);
      }
    }
    if priors.Some? && |priors.value| == 2 {
      ObjectsLackPropertyKeywords(props.propertyTypeFromKeyword(priors.value[1]), id, ctx, priors);
    }
  }

  /** Right after the opening parenthesis of a command with subcommands
      the list is exactly its subcommands. */
  lemma SubcommandsAfterParen(id: CommandId, ctx: Context)
    requires SubcommandMethods.HasSubcommands(id)
    ensures CreateDecls(id, ctx, None) ==
      Some(Decls(ItemList, ItemsOf(SubcommandMethods.GetSubcommands(id).value, Command)))
  {
    ParenMethodsShape(id);
  }

  /** Of the explicit `_methods` entries only `get_test_property` asks the
      property registry. */
  lemma ExplicitStrategies(id: CommandId)
    requires id in ExplicitParenMethods
    ensures ExplicitParenMethods[id] != GetPropertyStrategy && ExplicitParenMethods[id] != SubcommandStrategy
    ensures ExplicitParenMethods[id] == GetXPropertyStrategy <==> id == GetTestProperty
  {
  }

  /** Right after the opening parenthesis, every command of `_methods` but
      `get_test_property` (whose list depends on the property registry)
      gets a list. */
  lemma ParenTriggerOffersList(id: CommandId, ctx: Context)
    requires id in ExplicitParenMethods || SubcommandMethods.HasSubcommands(id)
    requires id != GetTestProperty
    ensures CreateDecls(id, ctx, None).Some?
  {
    ParenMethodsShape(id);
    var s := ParenMethods()[id];
    if !SubcommandMethods.HasSubcommands(id) {
      ExplicitStrategies(id);
    }
    ParenEntryRuns(id, ctx);
    RunWithoutPriors(s, id, ctx);
  }

  /** After `(`, `CreateDeclarations` runs the entry of `_methods`. */
  lemma ParenEntryRuns(id: CommandId, ctx: Context)
    requires id in ParenMethods()
    ensures SourceDefined(id, None)
    ensures CreateDecls(id, ctx, None) == Run(ParenMethods()[id], id, ctx, None)
  {
    TablesHaveNoSourceList(id);
  }

  /** Without prior parameters every strategy but the two that read the
      property registry gives a list, the subcommand strategy provided the
      command has subcommands. */
  lemma RunWithoutPriors(s: Strategy, id: CommandId, ctx: Context)
    requires SourceDefined(id, None)
    requires s != GetXPropertyStrategy && s != GetPropertyStrategy
    requires s == SubcommandStrategy ==> SubcommandMethods.HasSubcommands(id)
    ensures Run(s, id, ctx, None).Some?
  {
    if s == SetXPropertyStrategy {
      assert PropertiesIndex(None) < 0;
    }
  }

  /** After whitespace, `add_dependencies` lists the file's targets that
      are not yet among its parameters. */
  lemma DependenciesExcludeListed(ctx: Context, p: seq<string>)
    ensures CreateDecls(AddDependencies, ctx, Some(p)) == Some(TargetDecls(ctx, Some(p), false))
    ensures forall x :: x in CreateDecls(AddDependencies, ctx, Some(p)).value.items ==> x.text !in p
  {
    DependenciesWsEntry(p);
    TargetStrategyRuns(AddDependencies, ctx, Some(p));
    TargetListExcludesPriors(ctx, Some(p), false);
  }

  lemma DependenciesWsEntry(p: seq<string>)
    ensures AddDependencies in Table(Some(p)) && Table(Some(p))[AddDependencies] == TargetStrategy
  {
    assert Table(Some(p)) == WsMethods;
  }

  lemma TargetStrategyRuns(id: CommandId, ctx: Context, priors: Option<seq<string>>)
    requires SourceDefined(id, priors)
    ensures Run(TargetStrategy, id, ctx, priors) == Some(TargetDecls(ctx, priors, false))
  {
    assert IsLeaf(TargetStrategy);
  }
}
