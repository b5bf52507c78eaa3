/** The PATH manager (src/path_manager.rs): adds a directory to, or removes it
    from, the user's `Path` value under `HKEY_CURRENT_USER\Environment`.

    The three string helpers are functions. The registry value is the field of
    a `UserEnvironment` object; whether opening the key for reading or writing
    fails is a boolean parameter of the operation that does it, and the
    broadcast of the environment change is counted rather than sent. */
module PathManager {
  import opened Wrappers
  import opened Text

  // ---------------------------------------------------------------------------
  // String helpers
  // ---------------------------------------------------------------------------

  /** `contains_path`: the lower-cased directory occurs anywhere in the
      lower-cased PATH string. This is a substring test on the whole string,
      not a comparison of `;`-separated entries. */
  function ContainsPath(path: string, dir: string): (found: bool)
    ensures Contains(path, dir) ==> found
    ensures found ==> |dir| <= |path|
  {
    assert Contains(path, dir) ==> Contains(Lower(path), Lower(dir)) by {
      if Contains(path, dir) {
        ContainsLower(path, dir);
      }
    }
    Contains(Lower(path), Lower(dir))
  }

  /** The test succeeds exactly when the lower-cased directory occurs at some
      index of the lower-cased PATH. */
  lemma ContainsPathOccurs(path: string, dir: string)
    ensures ContainsPath(path, dir) <==> exists i: nat :: OccursAt(Lower(path), Lower(dir), i)
  {
    assert ContainsPath(path, dir) == Contains(Lower(path), Lower(dir));
    ContainsIff(Lower(path), Lower(dir));
  }

  /** The test ignores the case of ASCII letters on both sides. */
  lemma ContainsPathIgnoresCase(path: string, dir: string)
    ensures ContainsPath(Lower(path), dir) == ContainsPath(path, dir)
    ensures ContainsPath(path, Lower(dir)) == ContainsPath(path, dir)
  {
    LowerIdempotent(path);
    LowerIdempotent(dir);
  }

  /** Every entry of the PATH is found by the test. */
  lemma EntryIsContained(path: string, dir: string)
    requires dir in Split(path, ';')
    ensures ContainsPath(path, dir)
  {
    var parts := Split(path, ';');
    var k :| 0 <= k < |parts| && parts[k] == dir;
    JoinContainsPart(parts, [';'], k);
    JoinSplit(path, ';');
    ContainsLower(path, dir);
  }

  /** The test also succeeds on a directory that is only a proper prefix of an
      entry, such as "C:\bin" in a PATH holding "C:\bin2", although no entry
      equals it. */
  lemma PrefixOfEntryIsContained(dir: string, rest: string)
    requires rest != "" && ';' !in dir + rest
    ensures ContainsPath(dir + rest, dir)
    ensures dir !in Split(dir + rest, ';')
  {
    LowerConcat(dir, rest);
    assert Lower(dir + rest)[..|Lower(dir)|] == Lower(dir);
  }

  /** `append_to_path`: the directory alone for an empty PATH, otherwise the
      PATH, a `;` and the directory. The entries of the result are those of the
      PATH followed by those of the directory, and the directory is then found
      by `contains_path`. */
  function AppendToPath(path: string, dir: string): (newPath: string)
    ensures path == "" ==> newPath == dir
    ensures path != "" ==> Split(newPath, ';') == Split(path, ';') + Split(dir, ';')
    ensures ContainsPath(newPath, dir)
  {
    if path == "" then
      assert IsPrefix(Lower(dir), Lower(dir));
      dir
    else
      var newPath := path + ";" + dir;
      SplitConcat(path, dir, ';');
      ContainsSuffix(path + ";", dir);
      ContainsLower(newPath, dir);
      newPath
  }

  /** A directory without `;` becomes exactly one new entry at the end. */
  lemma AppendAddsOneEntry(path: string, dir: string)
    requires ';' !in dir
    ensures Split(AppendToPath(path, dir), ';') == (if path == "" then [] else Split(path, ';')) + [dir]
  {
  }

  /** The entries of `parts` other than `dir`, in their original order. */
  function Without(parts: seq<string>, dir: string): (kept: seq<string>)
    ensures |kept| <= |parts|
    ensures forall x :: x in kept <==> x in parts && x != dir
  {
    if parts == [] then []
    else
      var rest := Without(parts[1..], dir);
      assert forall x :: x in parts <==> x == parts[0] || x in parts[1..];
      if parts[0] == dir then rest else [parts[0]] + rest
  }

  /** Filtering distributes over concatenation. */
  lemma {:induction false} WithoutAppend(a: seq<string>, b: seq<string>, dir: string)
    ensures Without(a + b, dir) == Without(a, dir) + Without(b, dir)
    decreases |a|
  {
    if a == [] {
      assert a + b == b;
    } else {
      assert (a + b)[0] == a[0];
      assert (a + b)[1..] == a[1..] + b;
      WithoutAppend(a[1..], b, dir);
    }
  }

  /** Filtering out an absent entry changes nothing. */
  lemma {:induction false} WithoutAbsent(parts: seq<string>, dir: string)
    requires dir !in parts
    ensures Without(parts, dir) == parts
    decreases |parts|
  {
    if parts != [] {
      assert dir !in parts[1..];
      WithoutAbsent(parts[1..], dir);
    }
  }

  /** `remove_from_path_str`: split on `;`, drop every entry equal to the
      directory (case-sensitively), and join the rest with `;`. A non-empty
      directory is no longer an entry afterwards; with no entry equal to the
      directory the PATH comes back unchanged, because splitting and re-joining
      on `;` loses nothing. */
  function RemoveFromPathStr(path: string, dir: string): (newPath: string)
    ensures dir != "" ==> dir !in Split(newPath, ';')
    ensures dir !in Split(path, ';') ==> newPath == path
  {
    var parts := Split(path, ';');
    var kept := Without(parts, dir);
    assert kept != [] ==> Split(Join(kept, ";"), ';') == kept by {
      if kept != [] {
        assert forall k :: 0 <= k < |kept| ==> kept[k] in parts;
        SplitJoin(kept, ';');
      }
    }
    assert dir !in parts ==> Join(kept, ";") == path by {
      if dir !in parts {
        WithoutAbsent(parts, dir);
        JoinSplit(path, ';');
      }
    }
    Join(kept, ";")
  }

  /** When some entry survives, the entries of the result are exactly the
      surviving entries of the PATH, in order; when none survives the result is
      empty. */
  lemma RemoveKeepsOtherEntries(path: string, dir: string)
    ensures var kept := Without(Split(path, ';'), dir);
            (kept == [] ==> RemoveFromPathStr(path, dir) == "")
            && (kept != [] ==> Split(RemoveFromPathStr(path, dir), ';') == kept)
  {
    var kept := Without(Split(path, ';'), dir);
    if kept != [] {
      assert forall k :: 0 <= k < |kept| ==> kept[k] in Split(path, ';');
      SplitJoin(kept, ';');
    }
  }

  /** Removing a directory that was just appended restores the PATH, provided
      the directory holds no `;` and was not already an entry. */
  lemma RemoveAfterAppend(path: string, dir: string)
    requires ';' !in dir
    requires dir !in Split(path, ';')
    ensures RemoveFromPathStr(AppendToPath(path, dir), dir) == path
  {
    var parts := Split(path, ';');
    AppendAddsOneEntry(path, dir);
    if path == "" {
      assert Without([dir], dir) == [];
    } else {
      WithoutAppend(parts, [dir], dir);
      WithoutAbsent(parts, dir);
      assert Without([dir], dir) == [];
      assert parts + [] == parts;
      JoinSplit(path, ';');
    }
  }

  /** A case mismatch, such as "c:\tools" against a PATH holding "C:\Tools",
      is found by `contains_path` but not removed by `remove_from_path_str`,
      which compares entries exactly. */
  lemma CaseMismatchIsNotRemoved(path: string, dir: string)
    requires ';' !in path && path != dir && Lower(path) == Lower(dir)
    ensures ContainsPath(path, dir)
    ensures RemoveFromPathStr(path, dir) == path
  {
    assert IsPrefix(Lower(dir), Lower(path));
    assert Split(path, ';') == [path];
  }

  // ---------------------------------------------------------------------------
  // The registry value
  // ---------------------------------------------------------------------------

  datatype RegistryError =
    | OpenFailed    // the Environment key does not open for reading
    | WriteFailed   // the key does not open for writing, or the value is not set

  /** The current user's environment as the PATH manager sees it. `pathValue`
      is the `Path` value (`None` when it is missing or not a string);
      `notices` counts the environment-change broadcasts sent; `windows` is
      the target the program was built for. */
  class UserEnvironment {
    var pathValue: Option<string>
    var notices: nat
    const windows: bool

    constructor (pathValue: Option<string>, windows: bool)
      ensures this.pathValue == pathValue && this.notices == 0 && this.windows == windows
    {
      this.pathValue := pathValue;
      this.notices := 0;
      this.windows := windows;
    }

    /** The PATH string read from the value, empty when there is none. */
    function UserPath(): string
      reads this
    {
      match pathValue
      case Some(p) => p
      case None => ""
    }

    /** `get_user_path`: fails when the key does not open; otherwise the value,
        or the empty string when it is missing. */
    method GetUserPath(openFails: bool) returns (result: Result<string, RegistryError>)
      ensures openFails ==> result == Err(OpenFailed)
      ensures !openFails ==> result == Ok(UserPath())
    {
      if openFails {
        return Err(OpenFailed);
      }
      match pathValue
      case Some(p) => result := Ok(p);
      case None => result := Ok("");
    }

    /** `set_user_path`: overwrites the value, unless the write fails. */
    method SetUserPath(path: string, writeFails: bool) returns (outcome: Outcome<RegistryError>)
      modifies this
      ensures writeFails ==> outcome == Fail(WriteFailed) && pathValue == old(pathValue)
      ensures !writeFails ==> outcome == Pass && pathValue == Some(path)
      ensures notices == old(notices)
    {
      if writeFails {
        return Fail(WriteFailed);
      }
      pathValue := Some(path);
      outcome := Pass;
    }

    /** `add_to_path`: reports false without writing when the directory is
        already found in the PATH; otherwise writes the PATH with the directory
        appended, broadcasts the change and reports true. Off Windows it does
        nothing and reports false. */
    method AddToPath(dir: string, openFails: bool, writeFails: bool) returns (result: Result<bool, RegistryError>)
      modifies this
      ensures !windows ==> result == Ok(false) && pathValue == old(pathValue) && notices == old(notices)
      ensures windows && openFails ==>
                result == Err(OpenFailed) && pathValue == old(pathValue) && notices == old(notices)
      ensures windows && !openFails && ContainsPath(old(UserPath()), dir) ==>
                result == Ok(false) && pathValue == old(pathValue) && notices == old(notices)
      ensures windows && !openFails && !ContainsPath(old(UserPath()), dir) && writeFails ==>
                result == Err(WriteFailed) && pathValue == old(pathValue) && notices == old(notices)
      ensures windows && !openFails && !ContainsPath(old(UserPath()), dir) && !writeFails ==>
                result == Ok(true) && pathValue == Some(AppendToPath(old(UserPath()), dir))
                && notices == old(notices) + 1
    {
      if !windows {
        return Ok(false);
      }
      var current := GetUserPath(openFails);
      if current.Err? {
        return Err(current.error);
      }
      if ContainsPath(current.value, dir) {
        return Ok(false);
      }
      var newPath := AppendToPath(current.value, dir);
      var written := SetUserPath(newPath, writeFails);
      if written.Fail? {
        return Err(written.error);
      }
      notices := notices + 1;
      result := Ok(true);
    }

    /** `remove_from_path`: reports false without writing when the directory is
        not found in the PATH; otherwise writes the PATH without the entries
        equal to the directory, broadcasts the change and reports true, even
        when no entry was equal and the written string is unchanged. Off
        Windows it does nothing and reports false. */
    method RemoveFromPath(dir: string, openFails: bool, writeFails: bool) returns (result: Result<bool, RegistryError>)
      modifies this
      ensures !windows ==> result == Ok(false) && pathValue == old(pathValue) && notices == old(notices)
      ensures windows && openFails ==>
                result == Err(OpenFailed) && pathValue == old(pathValue) && notices == old(notices)
      ensures windows && !openFails && !ContainsPath(old(UserPath()), dir) ==>
                result == Ok(false) && pathValue == old(pathValue) && notices == old(notices)
      ensures windows && !openFails && ContainsPath(old(UserPath()), dir) && writeFails ==>
                result == Err(WriteFailed) && pathValue == old(pathValue) && notices == old(notices)
      ensures windows && !openFails && ContainsPath(old(UserPath()), dir) && !writeFails ==>
                result == Ok(true) && pathValue == Some(RemoveFromPathStr(old(UserPath()), dir))
                && notices == old(notices) + 1
    {
      if !windows {
        return Ok(false);
      }
      var current := GetUserPath(openFails);
      if current.Err? {
        return Err(current.error);
      }
      if !ContainsPath(current.value, dir) {
        return Ok(false);
      }
      var newPath := RemoveFromPathStr(current.value, dir);
      var written := SetUserPath(newPath, writeFails);
      if written.Fail? {
        return Err(written.error);
      }
      notices := notices + 1;
      result := Ok(true);
    }
  }

  /** Installing into an empty PATH: the first add writes the directory, a
      second add finds it and reports false, and a removal leaves an empty
      PATH behind, with one broadcast per write. */
  method InstallUninstallScenario(dir: string) returns (first: Result<bool, RegistryError>,
                                                        second: Result<bool, RegistryError>,
                                                        removed: Result<bool, RegistryError>,
                                                        finalPath: Option<string>, notices: nat)
    requires dir != "" && ';' !in dir
    ensures first == Ok(true) && second == Ok(false) && removed == Ok(true)
    ensures finalPath == Some("") && notices == 2
  {
    var env := new UserEnvironment(None, true);
    assert !ContainsPath("", dir);
    first := env.AddToPath(dir, false, false);
    assert IsPrefix(Lower(dir), Lower(dir));
    second := env.AddToPath(dir, false, false);
    removed := env.RemoveFromPath(dir, false, false);
    assert Without([dir], dir) == [];
    finalPath := env.pathValue;
    notices := env.notices;
  }
}
