/**
 * The zip-slip guard of the wrapper: an archive entry name is rejected when
 * extracting it could escape the target directory. The operating system is a
 * parameter, `isWindows`, standing for the `os.name` system property test.
 */
module ZipSlip {
  import opened Wrappers
  import opened Text

  /** `name.contains("..")`: two dots next to each other somewhere in the name. */
  lemma ContainsAdjacentDots(name: string)
    ensures Contains(name, "..") <==> exists i :: 0 <= i < |name| - 1 && name[i] == '.' && name[i + 1] == '.'
  {
    if Contains(name, "..") {
      var i :| OccursAt(name, "..", i);
      assert name[i..i + 2][0] == name[i] && name[i..i + 2][1] == name[i + 1];
    }
    if exists i :: 0 <= i < |name| - 1 && name[i] == '.' && name[i + 1] == '.' {
      var i :| 0 <= i < |name| - 1 && name[i] == '.' && name[i + 1] == '.';
      assert name[i..i + 2] == "..";
      assert OccursAt(name, "..", i);
    }
  }

  /** `name.contains(":")`: a colon somewhere in the name. */
  lemma ContainsColon(name: string)
    ensures Contains(name, ":") <==> exists i :: 0 <= i < |name| && name[i] == ':'
  {
    if Contains(name, ":") {
      var i :| OccursAt(name, ":", i);
      assert name[i..i + 1][0] == name[i];
    }
    if exists i :: 0 <= i < |name| && name[i] == ':' {
      var i :| 0 <= i < |name| && name[i] == ':';
      assert name[i..i + 1] == ":";
      assert OccursAt(name, ":", i);
    }
  }

  /**
   * `isUnsafeZipEntryName(name)` on an operating system that is Windows
   * exactly when `isWindows`: the name is empty, starts with `/` or `\`,
   * holds two adjacent dots, or holds a colon on Windows.
   */
  predicate IsUnsafeZipEntryName(name: string, isWindows: bool): (r: bool)
    ensures r <==>
      (|name| == 0 || name[0] == '/' || name[0] == '\\'
       || (exists i :: 0 <= i < |name| - 1 && name[i] == '.' && name[i + 1] == '.')
       || (isWindows && exists i :: 0 <= i < |name| && name[i] == ':'))
  {
    ContainsAdjacentDots(name);
    ContainsColon(name);
    name == []
    || "/" <= name
    || "\\" <= name
    || Contains(name, "..")
    || (Contains(name, ":") && isWindows)
  }

  /** `safeZipEntryName`: the name itself when it is safe, the exception otherwise. */
  function SafeZipEntryName(name: string, isWindows: bool): (r: Result<string, JavaException>)
    ensures r.Success? <==> !IsUnsafeZipEntryName(name, isWindows)
    ensures r.Success? ==> r.value == name
    ensures r.Failure? ==> r.error == IllegalArgumentException("'" + name + "' is not a safe zip entry name.")
  {
    if IsUnsafeZipEntryName(name, isWindows) then
      Failure(IllegalArgumentException("'" + name + "' is not a safe zip entry name."))
    else
      Success(name)
  }

  /** The empty name is unsafe on every system. */
  lemma EmptyNameUnsafe(isWindows: bool)
    ensures SafeZipEntryName("", isWindows).Failure?
  {
  }

  /** A name that starts with `/` or `\` is unsafe on every system. */
  lemma AbsoluteNameUnsafe(name: string, isWindows: bool)
    requires |name| > 0 && (name[0] == '/' || name[0] == '\\')
    ensures SafeZipEntryName(name, isWindows).Failure?
  {
    assert "/" <= name || "\\" <= name;
  }

  /** A name with `..` anywhere in it is unsafe on every system. */
  lemma ParentSegmentUnsafe(name: string, i: nat, isWindows: bool)
    requires i + 1 < |name| && name[i] == '.' && name[i + 1] == '.'
    ensures SafeZipEntryName(name, isWindows).Failure?
  {
  }

  /** Every name unsafe elsewhere is unsafe on Windows too. */
  lemma WindowsIsStricter(name: string)
    ensures IsUnsafeZipEntryName(name, false) ==> IsUnsafeZipEntryName(name, true)
  {
  }

  /** A colon alone makes a name unsafe on Windows and nowhere else. */
  lemma ColonOnlyMattersOnWindows(name: string, i: nat)
    requires i < |name| && name[i] == ':'
    requires name[0] != '/' && name[0] != '\\'
    requires forall j :: 0 <= j < |name| - 1 ==> !(name[j] == '.' && name[j + 1] == '.')
    ensures SafeZipEntryName(name, true).Failure?
    ensures SafeZipEntryName(name, false) == Success(name)
  {
  }

  /** Without a colon the system makes no difference. */
  lemma NoColonSameEverywhere(name: string)
    requires forall i :: 0 <= i < |name| ==> name[i] != ':'
    ensures SafeZipEntryName(name, true) == SafeZipEntryName(name, false)
  {
  }
}
