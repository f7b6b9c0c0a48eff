/** The two `System.IO.Path` queries the editor service makes on a file
    path: the file name and the extension. Directory separators are `\`
    and `/`, and `:` ends a volume name. */
module Paths {

  predicate IsSeparator(c: char)
  {
    c == '\\' || c == '/' || c == ':'
  }

  /** The index just past the last separator of the path, 0 when there is
      none. */
  function FileNameStart(path: string): (k: nat)
    ensures k <= |path|
    ensures forall j :: k <= j < |path| ==> !IsSeparator(path[j])
    ensures k > 0 ==> IsSeparator(path[k - 1])
  {
    if path == [] then 0
    else if IsSeparator(path[|path| - 1]) then |path|
    else FileNameStart(path[..|path| - 1])
  }

  /** `Path.GetFileName`: the part of the path after its last separator. */
  function GetFileName(path: string): string
  {
    path[FileNameStart(path)..]
  }

  /** The extension found scanning the path backwards from index `i`: the
      suffix from the last `.` of the file name, or empty when the file name
      has no `.` or ends with it. */
  function ExtensionBefore(path: string, i: nat): (r: string)
    requires i <= |path|
  {
    if i == 0 then ""
    else if path[i - 1] == '.' then (if i == |path| then "" else path[i - 1..])
    else if IsSeparator(path[i - 1]) then ""
    else ExtensionBefore(path, i - 1)
  }

  /** `Path.GetExtension`. */
  function GetExtension(path: string): (r: string)
  {
    ExtensionBefore(path, |path|)
  }

  lemma {:induction false} ExtensionBeforeShape(path: string, i: nat)
    requires i <= |path|
    requires forall j :: i <= j < |path| ==> path[j] != '.' && !IsSeparator(path[j])
    ensures var r := ExtensionBefore(path, i);
            r != [] ==> 2 <= |r| <= |path| && r[0] == '.' && r == path[|path| - |r|..]
                        && forall j :: 1 <= j < |r| ==> r[j] != '.' && !IsSeparator(r[j])
    decreases i
  {
    if i > 0 && path[i - 1] != '.' && !IsSeparator(path[i - 1]) {
      ExtensionBeforeShape(path, i - 1);
    }
  }

  /** A non-empty extension is a `.` followed by at least one character,
      none of them a `.` or a separator, and ends the path. */
  lemma ExtensionShape(path: string)
    ensures var r := GetExtension(path);
            r != [] ==> 2 <= |r| <= |path| && r[0] == '.' && r == path[|path| - |r|..]
                        && forall j :: 1 <= j < |r| ==> r[j] != '.' && !IsSeparator(r[j])
  {
    ExtensionBeforeShape(path, |path|);
  }
}
