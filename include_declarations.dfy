/** `CMakeIncludeDeclarations`: the completion list offered for `include(`,
    the `*.cmake` files beside the edited file except the install script
    that CMake generates. */
module IncludeDeclarations {
  import opened Wrappers
  import opened Paths

  /** The generated script the list leaves out. */
  const InstallScript: string := "cmake_install.cmake"

  /** `Select(Path.GetFileName)`: the file name of every listed path. */
  function FileNames(listing: seq<string>): (r: seq<string>)
    ensures |r| == |listing|
    ensures forall j :: 0 <= j < |listing| ==> r[j] == GetFileName(listing[j])
  {
    if listing == [] then []
    else FileNames(listing[..|listing| - 1]) + [GetFileName(listing[|listing| - 1])]
  }

  /** `Where(x => !x.Equals("cmake_install.cmake"))`: the names in order
      without the install script. The match is exact: other spellings of
      the name are kept. */
  function WithoutInstallScript(names: seq<string>): (r: seq<string>)
    ensures InstallScript !in r
    ensures |r| <= |names|
  {
    if names == [] then []
    else
      var init := WithoutInstallScript(names[..|names| - 1]);
      var name := names[|names| - 1];
      if name == InstallScript then init else init + [name]
  }

  /** Every other name is kept, and nothing else is. */
  lemma {:induction false} WithoutInstallScriptContents(names: seq<string>, f: string)
    ensures f in WithoutInstallScript(names) <==> f in names && f != InstallScript
  {
    if names != [] {
      var init := names[..|names| - 1];
      WithoutInstallScriptContents(init, f);
      assert names == init + [names[|names| - 1]];
    }
  }

  /** Filtering two parts and concatenating is filtering the whole, so the
      kept names stay in their order. */
  lemma {:induction false} WithoutInstallScriptConcat(a: seq<string>, b: seq<string>)
    ensures WithoutInstallScript(a + b) == WithoutInstallScript(a) + WithoutInstallScript(b)
    decreases |b|
  {
    if b != [] {
      var b' := b[..|b| - 1];
      assert (a + b)[..|a + b| - 1] == a + b';
      assert (a + b)[|a + b| - 1] == b[|b| - 1];
      WithoutInstallScriptConcat(a, b');
    } else {
      assert a + b == a;
    }
  }

  /** The include files for a listing of the directory's `*.cmake` files. */
  function IncludeFiles(listing: seq<string>): seq<string>
  {
    WithoutInstallScript(FileNames(listing))
  }

  /** A name is offered exactly when it is the file name of a listed path
      and not the install script. */
  lemma IncludeFilesContents(listing: seq<string>, f: string)
    ensures f in IncludeFiles(listing)
        <==> (exists j :: 0 <= j < |listing| && GetFileName(listing[j]) == f) && f != InstallScript
  {
    WithoutInstallScriptContents(FileNames(listing), f);
    if f in FileNames(listing) {
      var j :| 0 <= j < |listing| && FileNames(listing)[j] == f;
    }
  }

  /** The declarations object: the names chosen once, at construction. */
  datatype IncludeDeclarations = IncludeDeclarations(includeFiles: seq<string>)
  {
    /** `GetCount`: the number of names. */
    function GetCount(): (r: int)
      ensures r == |includeFiles|
    {
      |includeFiles|
    }

    /** `GetName`: the name at the index, `None` outside the list. */
    function GetName(index: int): (r: Option<string>)
      ensures r.None? <==> index < 0 || index >= |includeFiles|
      ensures r.Some? ==> r.value == includeFiles[index]
    {
      if index < 0 || index >= |includeFiles| then None else Some(includeFiles[index])
    }

    /** `GetDisplayText`: the same as `GetName`. */
    function GetDisplayText(index: int): (r: Option<string>)
      ensures r.None? <==> index < 0 || index >= |includeFiles|
      ensures r.Some? ==> r.value == includeFiles[index]
    {
      GetName(index)
    }
  }

  /** The constructor, given the listing of the `*.cmake` files in the
      directory of the edited file. */
  function Create(listing: seq<string>): (r: IncludeDeclarations)
    ensures InstallScript !in r.includeFiles
    ensures r.GetCount() <= |listing|
  {
    IncludeDeclarations(IncludeFiles(listing))
  }
}
