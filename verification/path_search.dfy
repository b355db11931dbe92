/** Locating the speech engine: `find_executable` walks the directories of
    `PATH` in order, and at start-up the script falls back to a `piper` that
    sits beside the script itself. Whether a path is executable (`os.access(p,
    os.X_OK)`) is given as the set of paths for which it holds. */
module PathSearch {
  import opened Base
  import opened Strings

  /** `os.pathsep` on POSIX. */
  const PathSeparator: char := ':'

  /** `os.defpath` on POSIX, used when `PATH` is unset. */
  const DefaultSearchPath: string := "/bin:/usr/bin"

  /** The engine's executable name. */
  const EngineName: string := "piper"

  /** The directories searched, in order: `os.environ.get("PATH", os.defpath).split(os.pathsep)`. */
  function SearchDirs(pathEnv: Option<string>): (dirs: seq<string>)
    ensures |dirs| >= 1
  {
    Split(if pathEnv.Some? then pathEnv.value else DefaultSearchPath, PathSeparator)
  }

  /** `dirs[i]` holds an executable `name` and no earlier directory does. */
  predicate IsFirstHit(dirs: seq<string>, name: string, executables: set<string>, i: int) {
    && 0 <= i < |dirs|
    && PathJoin(dirs[i], name) in executables
    && forall j :: 0 <= j < i ==> PathJoin(dirs[j], name) !in executables
  }

  /** The reference search: the first directory, in order, whose candidate is executable. */
  function FirstExecutable(dirs: seq<string>, name: string, executables: set<string>): (r: Option<string>)
    ensures r.Some? ==> r.value in executables
  {
    if dirs == [] then None
    else if PathJoin(dirs[0], name) in executables then Some(PathJoin(dirs[0], name))
    else FirstExecutable(dirs[1..], name, executables)
  }

  /** The search returns the candidate of the first directory that has one, and None
      exactly when no directory has one. */
  lemma {:induction false} FirstExecutableIsFirstHit(dirs: seq<string>, name: string, executables: set<string>)
    ensures FirstExecutable(dirs, name, executables).None?
            <==> forall j :: 0 <= j < |dirs| ==> PathJoin(dirs[j], name) !in executables
    ensures FirstExecutable(dirs, name, executables).Some?
            ==> exists i :: IsFirstHit(dirs, name, executables, i)
                            && FirstExecutable(dirs, name, executables).value == PathJoin(dirs[i], name)
  {
    if dirs != [] && PathJoin(dirs[0], name) !in executables {
      var tail := dirs[1..];
      FirstExecutableIsFirstHit(tail, name, executables);
      if FirstExecutable(tail, name, executables).Some? {
        var i :| IsFirstHit(tail, name, executables, i)
                 && FirstExecutable(tail, name, executables).value == PathJoin(tail[i], name);
        assert IsFirstHit(dirs, name, executables, i + 1) by {
          forall j | 0 <= j < i + 1 ensures PathJoin(dirs[j], name) !in executables {
            if j > 0 { assert dirs[j] == tail[j - 1]; }
          }
        }
      } else {
        forall j | 0 <= j < |dirs| ensures PathJoin(dirs[j], name) !in executables {
          if j > 0 { assert dirs[j] == tail[j - 1]; }
        }
      }
    } else if dirs != [] {
      assert IsFirstHit(dirs, name, executables, 0);
    }
  }

  /** The loop of `find_executable`: try each directory in order and stop at the first
      executable candidate. */
  method SearchInOrder(dirs: seq<string>, name: string, executables: set<string>)
    returns (exe: Option<string>)
    ensures exe == FirstExecutable(dirs, name, executables)
  {
    var i := 0;
    while i < |dirs|
      invariant 0 <= i <= |dirs|
      invariant FirstExecutable(dirs[i..], name, executables) == FirstExecutable(dirs, name, executables)
    {
      var candidate := PathJoin(dirs[i], name);
      if candidate in executables {
        return Some(candidate);
      }
      assert dirs[i..][1..] == dirs[i + 1..];
      i := i + 1;
    }
    return None;
  }

  /** `find_executable(name)`. */
  method FindExecutable(name: string, pathEnv: Option<string>, executables: set<string>)
    returns (exe: Option<string>)
    ensures exe == FirstExecutable(SearchDirs(pathEnv), name, executables)
    ensures exe.None? <==> forall j :: 0 <= j < |SearchDirs(pathEnv)|
                                       ==> PathJoin(SearchDirs(pathEnv)[j], name) !in executables
    ensures exe.Some? ==> exe.value in executables
                          && exists i :: IsFirstHit(SearchDirs(pathEnv), name, executables, i)
                                         && exe.value == PathJoin(SearchDirs(pathEnv)[i], name)
  {
    var dirs := SearchDirs(pathEnv);
    exe := SearchInOrder(dirs, name, executables);
    FirstExecutableIsFirstHit(dirs, name, executables);
  }

  /** `PIPER_EXE`: the engine found on `PATH`, else a `piper` in the script's own directory. */
  method LocateEngine(pathEnv: Option<string>, scriptDir: string, executables: set<string>)
    returns (exe: Option<string>)
    ensures exe.Some? ==> exe.value in executables
    ensures FirstExecutable(SearchDirs(pathEnv), EngineName, executables).Some?
            ==> exe == FirstExecutable(SearchDirs(pathEnv), EngineName, executables)
    ensures FirstExecutable(SearchDirs(pathEnv), EngineName, executables).None?
            ==> exe == if PathJoin(scriptDir, EngineName) in executables
                       then Some(PathJoin(scriptDir, EngineName)) else None
  {
    exe := FindExecutable(EngineName, pathEnv, executables);
    if exe.None? {
      var local := PathJoin(scriptDir, EngineName);
      if local in executables {
        exe := Some(local);
      }
    }
  }
}
