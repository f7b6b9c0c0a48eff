/** The table of CMake command names, the test of whether a token names a
    command, and the identifiers of the commands. */
module Keywords {
  import opened Strings

  /** One identifier per command name (in table order), and `Unspecified`
      for a token that names no command. */
  datatype CommandId =
    AddCustomCommand | AddCustomTarget | AddDefinitions | AddDependencies | AddExecutable |
    AddLibrary | AddSubdirectory | AddTest | AuxSourceDirectory | Break |
    BuildCommand | CMakeMinimumRequired | CMakePolicy | ConfigureFile | CreateTestSourceList |
    DefineProperty | Else | ElseIf | EnableLanguage | EnableTesting |
    EndForEach | EndFunction | EndIf | EndMacro | EndWhile |
    ExecuteProcess | Export | File | FindFile | FindLibrary |
    FindPackage | FindPath | FindProgram | FLTKWrapUi | ForEach |
    Function | GetCMakeProperty | GetDirectoryProperty | GetFileNameComponent | GetProperty |
    GetSourceFileProperty | GetTargetProperty | GetTestProperty | If | Include |
    IncludeDirectories | IncludeExternalMsProject | IncludeRegularExpression | Install | LinkDirectories |
    List | LoadCache | LoadCommand | Macro | MarkAsAdvanced |
    Math | Message | Option | Project | QtWrapCpp |
    QtWrapUi | RemoveDefinitions | Return | SeparateArguments | Set |
    SetDirectoryProperties | SetProperty | SetSourceFilesProperties | SetTargetProperties | SetTestsProperties |
    SiteName | SourceGroup | String | TargetLinkLibraries | TryCompile |
    TryRun | Unset | VariableWatch | While
    | Unspecified

  // CMakeTools/CMakeKeywords.cs, lines 17-25.
  const KeywordsA: seq<string> := [
    "add_custom_command", "add_custom_target", "add_definitions",
    "add_dependencies", "add_executable", "add_library",
    "add_subdirectory", "add_test", "aux_source_directory"
  ]

  // CMakeTools/CMakeKeywords.cs, lines 26-27.
  const KeywordsB: seq<string> := [
    "break", "build_command"
  ]

  // CMakeTools/CMakeKeywords.cs, lines 28-31.
  const KeywordsC: seq<string> := [
    "cmake_minimum_required", "cmake_policy", "configure_file",
    "create_test_sourcelist"
  ]

  // CMakeTools/CMakeKeywords.cs, lines 32-32.
  const KeywordsD: seq<string> := [
    "define_property"
  ]

  // CMakeTools/CMakeKeywords.cs, lines 33-43.
  const KeywordsE: seq<string> := [
    "else", "elseif", "enable_language",
    "enable_testing", "endforeach", "endfunction",
    "endif", "endmacro", "endwhile",
    "execute_process", "export"
  ]

  // CMakeTools/CMakeKeywords.cs, lines 44-52.
  const KeywordsF: seq<string> := [
    "file", "find_file", "find_library",
    "find_package", "find_path", "find_program",
    "fltk_wrap_ui", "foreach", "function"
  ]

  // CMakeTools/CMakeKeywords.cs, lines 53-59.
  const KeywordsG: seq<string> := [
    "get_cmake_property", "get_directory_property", "get_filename_component",
    "get_property", "get_source_file_property", "get_target_property",
    "get_test_property"
  ]

  // CMakeTools/CMakeKeywords.cs, lines 60-65.
  const KeywordsI: seq<string> := [
    "if", "include", "include_directories",
    "include_external_msproject", "include_regular_expression", "install"
  ]

  // CMakeTools/CMakeKeywords.cs, lines 66-69.
  const KeywordsL: seq<string> := [
    "link_directories", "list", "load_cache",
    "load_command"
  ]

  // CMakeTools/CMakeKeywords.cs, lines 70-73.
  const KeywordsM: seq<string> := [
    "macro", "mark_as_advanced", "math",
    "message"
  ]

  // CMakeTools/CMakeKeywords.cs, lines 74-74.
  const KeywordsO: seq<string> := [
    "option"
  ]

  // CMakeTools/CMakeKeywords.cs, lines 75-75.
  const KeywordsP: seq<string> := [
    "project"
  ]

  // CMakeTools/CMakeKeywords.cs, lines 76-77.
  const KeywordsQ: seq<string> := [
    "qt_wrap_cpp", "qt_wrap_ui"
  ]

  // CMakeTools/CMakeKeywords.cs, lines 78-79.
  const KeywordsR: seq<string> := [
    "remove_definitions", "return"
  ]

  // CMakeTools/CMakeKeywords.cs, lines 80-89.
  const KeywordsS: seq<string> := [
    "separate_arguments", "set", "set_directory_properties",
    "set_property", "set_source_files_properties", "set_target_properties",
    "set_tests_properties", "site_name", "source_group",
    "string"
  ]

  // CMakeTools/CMakeKeywords.cs, lines 90-92.
  const KeywordsT: seq<string> := [
    "target_link_libraries", "try_compile", "try_run"
  ]

  // CMakeTools/CMakeKeywords.cs, lines 93-93.
  const KeywordsU: seq<string> := [
    "unset"
  ]

  // CMakeTools/CMakeKeywords.cs, lines 94-94.
  const KeywordsV: seq<string> := [
    "variable_watch"
  ]

  // CMakeTools/CMakeKeywords.cs, lines 95-95.
  const KeywordsW: seq<string> := [
    "while"
  ]

  /** The command names, lower case, in the order of the table. */
  const Keywords: seq<string> :=
    KeywordsA + KeywordsB + KeywordsC + KeywordsD + KeywordsE + KeywordsF + KeywordsG
    + KeywordsI + KeywordsL + KeywordsM + KeywordsO + KeywordsP + KeywordsQ + KeywordsR
    + KeywordsS + KeywordsT + KeywordsU + KeywordsV + KeywordsW

  lemma KeywordsAAscending()
    ensures Ascending(KeywordsA)
  {
    forall i | 0 <= i < 8 ensures Below(KeywordsA[i], KeywordsA[i + 1]) {
      if i == 0 {
      } else if i == 1 {
      } else if i == 2 {
      } else if i == 3 {
      } else if i == 4 {
      } else if i == 5 {
      } else if i == 6 {
      }
    }
  }

  lemma KeywordsBAscending()
    ensures Ascending(KeywordsB)
  {
    forall i | 0 <= i < 1 ensures Below(KeywordsB[i], KeywordsB[i + 1]) {
    }
  }

  lemma KeywordsCAscending()
    ensures Ascending(KeywordsC)
  {
    forall i | 0 <= i < 3 ensures Below(KeywordsC[i], KeywordsC[i + 1]) {
      if i == 0 {
      } else if i == 1 {
      }
    }
  }

  lemma KeywordsEAscending()
    ensures Ascending(KeywordsE)
  {
    forall i | 0 <= i < 10 ensures Below(KeywordsE[i], KeywordsE[i + 1]) {
      if i == 0 {
      } else if i == 1 {
      } else if i == 2 {
      } else if i == 3 {
      } else if i == 4 {
      } else if i == 5 {
      } else if i == 6 {
      } else if i == 7 {
      } else if i == 8 {
      }
    }
  }

  lemma KeywordsFAscending()
    ensures Ascending(KeywordsF)
  {
    forall i | 0 <= i < 8 ensures Below(KeywordsF[i], KeywordsF[i + 1]) {
      if i == 0 {
      } else if i == 1 {
      } else if i == 2 {
      } else if i == 3 {
      } else if i == 4 {
      } else if i == 5 {
      } else if i == 6 {
      }
    }
  }

  lemma KeywordsGAscending()
    ensures Ascending(KeywordsG)
  {
    forall i | 0 <= i < 6 ensures Below(KeywordsG[i], KeywordsG[i + 1]) {
      if i == 0 {
      } else if i == 1 {
      } else if i == 2 {
      } else if i == 3 {
      } else if i == 4 {
      }
    }
  }

  lemma KeywordsIAscending()
    ensures Ascending(KeywordsI)
  {
    forall i | 0 <= i < 5 ensures Below(KeywordsI[i], KeywordsI[i + 1]) {
      if i == 0 {
      } else if i == 1 {
      } else if i == 2 {
      } else if i == 3 {
      }
    }
  }

  lemma KeywordsLAscending()
    ensures Ascending(KeywordsL)
  {
    forall i | 0 <= i < 3 ensures Below(KeywordsL[i], KeywordsL[i + 1]) {
      if i == 0 {
      } else if i == 1 {
      }
    }
  }

  lemma KeywordsMAscending()
    ensures Ascending(KeywordsM)
  {
    forall i | 0 <= i < 3 ensures Below(KeywordsM[i], KeywordsM[i + 1]) {
      if i == 0 {
      } else if i == 1 {
      }
    }
  }

  lemma KeywordsQAscending()
    ensures Ascending(KeywordsQ)
  {
    forall i | 0 <= i < 1 ensures Below(KeywordsQ[i], KeywordsQ[i + 1]) {
    }
  }

  lemma KeywordsRAscending()
    ensures Ascending(KeywordsR)
  {
    forall i | 0 <= i < 1 ensures Below(KeywordsR[i], KeywordsR[i + 1]) {
    }
  }

  lemma KeywordsSAscending()
    ensures Ascending(KeywordsS)
  {
    forall i | 0 <= i < 9 ensures Below(KeywordsS[i], KeywordsS[i + 1]) {
      if i == 0 {
      } else if i == 1 {
      } else if i == 2 {
      } else if i == 3 {
      } else if i == 4 {
      } else if i == 5 {
      } else if i == 6 {
      } else if i == 7 {
      }
    }
  }

  lemma KeywordsTAscending()
    ensures Ascending(KeywordsT)
  {
    forall i | 0 <= i < 2 ensures Below(KeywordsT[i], KeywordsT[i + 1]) {
      if i == 0 {
      }
    }
  }

  /** The table is strictly ascending in the ordinal order. */
  lemma KeywordsStrictlySorted()
    ensures StrictlySorted(Keywords)
  {
    KeywordsAAscending();
    KeywordsBAscending();
    KeywordsCAscending();
    KeywordsEAscending();
    KeywordsFAscending();
    KeywordsGAscending();
    KeywordsIAscending();
    KeywordsLAscending();
    KeywordsMAscending();
    KeywordsQAscending();
    KeywordsRAscending();
    KeywordsSAscending();
    KeywordsTAscending();
    AscendingConcat(KeywordsA, KeywordsB);
    AscendingConcat(KeywordsA + KeywordsB, KeywordsC);
    AscendingConcat(KeywordsA + KeywordsB + KeywordsC, KeywordsD);
    AscendingConcat(KeywordsA + KeywordsB + KeywordsC + KeywordsD, KeywordsE);
    AscendingConcat(KeywordsA + KeywordsB + KeywordsC + KeywordsD + KeywordsE, KeywordsF);
    AscendingConcat(KeywordsA + KeywordsB + KeywordsC + KeywordsD + KeywordsE + KeywordsF, KeywordsG);
    AscendingConcat(KeywordsA + KeywordsB + KeywordsC + KeywordsD + KeywordsE + KeywordsF + KeywordsG, KeywordsI);
    AscendingConcat(KeywordsA + KeywordsB + KeywordsC + KeywordsD + KeywordsE + KeywordsF + KeywordsG + KeywordsI, KeywordsL);
    AscendingConcat(KeywordsA + KeywordsB + KeywordsC + KeywordsD + KeywordsE + KeywordsF + KeywordsG + KeywordsI + KeywordsL, KeywordsM);
    AscendingConcat(KeywordsA + KeywordsB + KeywordsC + KeywordsD + KeywordsE + KeywordsF + KeywordsG + KeywordsI + KeywordsL + KeywordsM, KeywordsO);
    AscendingConcat(KeywordsA + KeywordsB + KeywordsC + KeywordsD + KeywordsE + KeywordsF + KeywordsG + KeywordsI + KeywordsL + KeywordsM + KeywordsO, KeywordsP);
    AscendingConcat(KeywordsA + KeywordsB + KeywordsC + KeywordsD + KeywordsE + KeywordsF + KeywordsG + KeywordsI + KeywordsL + KeywordsM + KeywordsO + KeywordsP, KeywordsQ);
    AscendingConcat(KeywordsA + KeywordsB + KeywordsC + KeywordsD + KeywordsE + KeywordsF + KeywordsG + KeywordsI + KeywordsL + KeywordsM + KeywordsO + KeywordsP + KeywordsQ, KeywordsR);
    AscendingConcat(KeywordsA + KeywordsB + KeywordsC + KeywordsD + KeywordsE + KeywordsF + KeywordsG + KeywordsI + KeywordsL + KeywordsM + KeywordsO + KeywordsP + KeywordsQ + KeywordsR, KeywordsS);
    AscendingConcat(KeywordsA + KeywordsB + KeywordsC + KeywordsD + KeywordsE + KeywordsF + KeywordsG + KeywordsI + KeywordsL + KeywordsM + KeywordsO + KeywordsP + KeywordsQ + KeywordsR + KeywordsS, KeywordsT);
    AscendingConcat(KeywordsA + KeywordsB + KeywordsC + KeywordsD + KeywordsE + KeywordsF + KeywordsG + KeywordsI + KeywordsL + KeywordsM + KeywordsO + KeywordsP + KeywordsQ + KeywordsR + KeywordsS + KeywordsT, KeywordsU);
    AscendingConcat(KeywordsA + KeywordsB + KeywordsC + KeywordsD + KeywordsE + KeywordsF + KeywordsG + KeywordsI + KeywordsL + KeywordsM + KeywordsO + KeywordsP + KeywordsQ + KeywordsR + KeywordsS + KeywordsT + KeywordsU, KeywordsV);
    AscendingConcat(KeywordsA + KeywordsB + KeywordsC + KeywordsD + KeywordsE + KeywordsF + KeywordsG + KeywordsI + KeywordsL + KeywordsM + KeywordsO + KeywordsP + KeywordsQ + KeywordsR + KeywordsS + KeywordsT + KeywordsU + KeywordsV, KeywordsW);
    AscendingIsStrictlySorted(Keywords);
  }

  /** `IsCommand`: the binary search of the table for the lower-cased token
      finds an index. */
  predicate IsCommand(token: string)
  {
    BinarySearch(Keywords, Lower(token)) >= 0
  }

  /** A token is a command exactly when its lower-case form is in the table. */
  lemma IsCommandIffListed(token: string)
    ensures IsCommand(token) <==> Lower(token) in Keywords
  {
    KeywordsStrictlySorted();
    BinarySearchIsMembership(Keywords, Lower(token));
  }

  /** The test ignores case. */
  lemma IsCommandIgnoresCase(token: string)
    ensures IsCommand(token) == IsCommand(Lower(token))
  {
    LowerIdempotent(token);
  }

  /** A proper prefix of a command name that is not itself in the table is
      not a command: a partly typed name is never taken for the command it
      begins. Being a prefix adds nothing to the proof; only the absence of
      the lower-cased token from the table matters. */
  lemma UnlistedPrefixIsNotCommand(token: string, k: int)
    requires 0 <= k < |Keywords|
    requires |token| < |Keywords[k]| && Lower(token) == Keywords[k][..|token|]
    requires Lower(token) !in Keywords
    ensures !IsCommand(token)
  {
    IsCommandIffListed(token);
  }

  /** `add_custom` is not in the table: it sorts before the first name. */
  lemma AddCustomNotListed()
    ensures "add_custom" !in Keywords
  {
    assert Below("add_custom", Keywords[0]);
    KeywordsStrictlySorted();
    NotAtOrAfter(Keywords, 0, "add_custom");
  }

  /** `add_custom`, in any case, a proper prefix of the first command
      name, is not a command. */
  lemma AddCustomIsNotCommand(token: string)
    requires Lower(token) == "add_custom"
    ensures !IsCommand(token)
  {
    AddCustomNotListed();
    IsCommandIffListed(token);
  }

  /** `SET`, in any case, is a command. */
  lemma SetIsCommand(token: string)
    requires Lower(token) == "set"
    ensures IsCommand(token)
  {
    assert Keywords[64] == "set";
    IsCommandIffListed(token);
  }
}
