/** The upward search for a `credentials` directory (`get_config_path`).

    A path is the sequence of its components; the filesystem root is the
    empty sequence, which is the only path that is its own parent. The
    filesystem is abstracted to the set of paths that exist and are
    directories. */
module PathSearch {
  import opened Wrappers

  type Path = seq<string>

  const Root: Path := []

  /** The name of the directory the search looks for. */
  const CredentialsDirName: string := "credentials"

  /** Why a configuration could not be opened. Both cases are a
      `FileNotFoundError` in the source. */
  datatype SearchError =
    | NoCredentialsDir              // no ancestor holds a `credentials` directory
    | NoConfigFile(path: Path)      // the resolved file does not exist

  /** `path.parent`: drops the last component; the root is its own parent. */
  function Parent(p: Path): (r: Path)
    ensures r == p <==> p == Root
    ensures p != Root ==> r < p && |r| == |p| - 1
  {
    if p == Root then Root else p[..|p| - 1]
  }

  /** `dir / name` */
  function Join(dir: Path, name: string): (r: Path)
    ensures dir < r && |r| == |dir| + 1 && r[|dir|] == name
  {
    dir + [name]
  }

  /** `(dir / "credentials").exists() and (dir / "credentials").is_dir()`:
      some directory is a child of `dir` named `credentials`. */
  predicate HasCredentialsDir(dir: Path, dirs: set<Path>): (b: bool)
    ensures b <==> exists c | c in dirs :: dir < c && |c| == |dir| + 1 && c[|dir|] == CredentialsDirName
  {
    assert forall c | c in dirs && dir < c && |c| == |dir| + 1 && c[|dir|] == CredentialsDirName
      :: c == Join(dir, CredentialsDirName) by {
      forall c | c in dirs && dir < c && |c| == |dir| + 1 && c[|dir|] == CredentialsDirName
        ensures c == Join(dir, CredentialsDirName)
      {
        assert c[..|dir|] == dir;
        assert c == c[..|dir|] + [c[|dir|]];
      }
    }
    Join(dir, CredentialsDirName) in dirs
  }

  /** The directory at which the walk starting at `start` stops with
      success, step by step as the loop takes it: a directory that is its
      own parent ends the walk before it is probed. */
  function FirstCredentialsDir(start: Path, dirs: set<Path>): (r: Option<Path>)
    ensures r.Some? ==> r.value != Root && r.value <= start && HasCredentialsDir(r.value, dirs)
    decreases |start|
  {
    if start == Parent(start) then None
    else if HasCredentialsDir(start, dirs) then Some(start)
    else FirstCredentialsDir(Parent(start), dirs)
  }

  /** The walk, read declaratively: it succeeds exactly when some non-root
      ancestor-or-self of `start` has a `credentials` directory, and then
      it yields the nearest such directory. */
  lemma {:induction false} SearchFindsNearest(start: Path, dirs: set<Path>)
    ensures FirstCredentialsDir(start, dirs).None? <==>
              forall k | 0 < k <= |start| :: !HasCredentialsDir(start[..k], dirs)
    ensures FirstCredentialsDir(start, dirs).Some? ==>
              var d := FirstCredentialsDir(start, dirs).value;
              && 0 < |d| <= |start| && d == start[..|d|]
              && HasCredentialsDir(d, dirs)
              && forall k | |d| < k <= |start| :: !HasCredentialsDir(start[..k], dirs)
    decreases |start|
  {
    if start == Root {
    } else if HasCredentialsDir(start, dirs) {
      assert start[..|start|] == start;
    } else {
      var p := Parent(start);
      assert p == start[..|start| - 1];
      SearchFindsNearest(p, dirs);
      forall k | 0 < k <= |p|
        ensures p[..k] == start[..k]
      {
      }
      assert start[..|start|] == start;
    }
  }

  /** The loop exits as soon as it reaches the root, so a `credentials`
      directory directly under the root never influences the result. */
  lemma {:induction false} RootNeverProbed(start: Path, dirs: set<Path>)
    ensures FirstCredentialsDir(start, dirs + {Join(Root, CredentialsDirName)})
         == FirstCredentialsDir(start, dirs - {Join(Root, CredentialsDirName)})
    decreases |start|
  {
    if start != Root {
      assert Join(start, CredentialsDirName) != Join(Root, CredentialsDirName);
      RootNeverProbed(Parent(start), dirs);
    }
  }

  /** The smallest instance: `/credentials` exists, the working directory
      is `/home`, and the search still fails. */
  lemma RootCredentialsNotFound()
    ensures FirstCredentialsDir(["home"], {["credentials"]}) == None
  {
  }

  /** `get_config_path(config_file_name, caller_path)`, with the working
      directory `cwd` and the directories `dirs` of the filesystem as
      parameters. The result does not depend on `callerPath`. */
  method GetConfigPath(configFileName: string, callerPath: Option<Path>, cwd: Path, dirs: set<Path>)
    returns (r: Result<Path, SearchError>)
    ensures r.Ok? <==> FirstCredentialsDir(cwd, dirs).Some?
    ensures r.Ok? ==>
              r.value == Join(Join(FirstCredentialsDir(cwd, dirs).value, CredentialsDirName), configFileName)
    ensures r.Err? ==> r.error == NoCredentialsDir
  {
    var current: Path;
    if callerPath.None? {
      current := cwd;
    } else {
      // the caller's path is accepted but the walk starts from cwd anyway
      current := cwd;
    }
    while current != Parent(current)
      invariant FirstCredentialsDir(current, dirs) == FirstCredentialsDir(cwd, dirs)
      decreases |current|
    {
      var credPath := Join(current, CredentialsDirName);
      if credPath in dirs {
        return Ok(Join(credPath, configFileName));
      }
      current := Parent(current);
    }
    return Err(NoCredentialsDir);
  }
}
