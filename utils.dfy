/**
 * The helpers of the CLI: the in-memory `package.json` handle `Pkg`, the
 * leveled reporter `print` (which console channel a level goes to) and the
 * `.git` presence test.
 */
module Utils {
  import opened Wrappers
  import opened Json
  import opened Manifest

  /** Name of the tool's own configuration file, joined to the working directory. */
  const ConfigureName := ".standard.jsonc"

  /** The reporter's levels. */
  datatype Level = Error | Warn | Info | Debug | Success

  /** The console functions a line can go to: `error`, `warn` and `log`. */
  datatype Channel = ErrorChannel | WarnChannel | LogChannel

  /** `_DEV_`: the process runs with `NODE_ENV` set to `development`. */
  predicate IsDevMode(nodeEnv: Option<string>) {
    nodeEnv == Some("development")
  }

  /**
   * `print(level, ...)`: the channel the line is written to, or None when it is
   * suppressed. Debug lines are dropped outside dev mode; Error goes to the
   * error channel, Warn to the warn channel, every other level to the log.
   */
  function PrintChannel(level: Level, dev: bool): (r: Option<Channel>)
    ensures r.None? <==> level == Debug && !dev
    ensures r == Some(ErrorChannel) <==> level == Error
    ensures r == Some(WarnChannel) <==> level == Warn
    ensures r == Some(LogChannel) <==> level == Info || level == Success || (level == Debug && dev)
  {
    var channel := match level
      case Error => ErrorChannel
      case Warn => WarnChannel
      case _ => LogChannel;
    if !dev && level == Debug then None else Some(channel)
  }

  /** `path.join(dir, name)` for a directory and a plain file name (no normalisation). */
  function Join(dir: string, name: string): string {
    dir + "/" + name
  }

  /**
   * `isGitRepo(cwd)`: `.git` exists in `cwd`, or in the process's working
   * directory when `cwd` is empty. `files` is the set of existing paths.
   */
  predicate IsGitRepo(files: set<string>, cwd: string, processCwd: string) {
    Join(if cwd != "" then cwd else processCwd, ".git") in files
  }

  /** Given a directory, `isGitRepo` looks there and nowhere else; the process's directory does not matter. */
  lemma GitRepoIgnoresProcessCwd(files: set<string>, cwd: string, processCwd: string, otherCwd: string)
    requires cwd != ""
    ensures IsGitRepo(files, cwd, processCwd) == IsGitRepo(files, cwd, otherCwd)
    ensures IsGitRepo(files, cwd, processCwd) <==> Join(cwd, ".git") in files
  {
  }

  /** Without a directory, `isGitRepo` answers as if given the process's directory. */
  lemma GitRepoDefaultsToProcessCwd(files: set<string>, processCwd: string, otherCwd: string)
    requires processCwd != ""
    ensures IsGitRepo(files, "", processCwd) == IsGitRepo(files, processCwd, otherCwd)
  {
  }

  /** The `package.json` handle: the parsed manifest and whether it has unsaved changes. */
  class Pkg {
    const path: string
    var obj: Object
    var dirty: bool
    /** The manifest as the file at `path` holds it: as parsed, or as last written. */
    ghost var disk: Object

    /** A clean handle holds no unsaved change. */
    ghost predicate Saved()
      reads this
    {
      !dirty ==> obj == disk
    }

    /** `new Pkg(identifier)`, given the manifest `loaded` that parsing the file produced. */
    constructor (identifier: string, loaded: Object)
      ensures path == identifier && obj == loaded && !dirty
      ensures disk == loaded && Saved()
    {
      path := identifier;
      obj := loaded;
      dirty := false;
      disk := loaded;
    }

    /** `removeDep(name)`: deletes `name` from both dependency tables in place. */
    method RemoveDep(name: string)
      modifies this
      ensures obj == RemoveDependency(old(obj), name)
      ensures dirty == (old(dirty) || RemoveMarksDirty(old(obj)))
      ensures disk == old(disk) && (old(Saved()) ==> Saved())
    {
      if FieldTruthy(obj, Dependencies) {
        obj := obj[Dependencies := DeleteKey(obj[Dependencies], name)];
        dirty := true;
      }
      if FieldTruthy(obj, DevDependencies) {
        obj := obj[DevDependencies := DeleteKey(obj[DevDependencies], name)];
        dirty := true;
      }
    }

    /** `get(path)`: reads the value at the path; neither the manifest nor the flag changes. */
    method Get(p: seq<string>) returns (r: Option<Json>)
      ensures r == GetPath(obj, p)
    {
      r := GetPath(obj, p);
    }

    /** `set(path, value)`: assigns at the path and marks the handle dirty, even when nothing was assigned. */
    method Set(p: seq<string>, v: Json)
      modifies this
      ensures obj == SetPath(old(obj), p, v) && dirty
      ensures disk == old(disk) && Saved()
    {
      obj := SetPath(obj, p, v);
      dirty := true;
    }

    /** `getVersion(name)`: runtime table first, then the dev table, else `null`. */
    method GetVersion(name: string) returns (r: Result<Json, TypeError>)
      ensures r == LookupVersion(obj, name)
    {
      if name != "" {
        var inDeps := InField(obj, Dependencies, name);
        if inDeps.Err? {
          return Err(inDeps.error);
        }
        if inDeps.value.Some? {
          return Ok(inDeps.value.value);
        }
        var inDev := InField(obj, DevDependencies, name);
        if inDev.Err? {
          return Err(inDev.error);
        }
        if inDev.value.Some? {
          return Ok(inDev.value.value);
        }
      }
      return Ok(Null);
    }

    /** `hasInstall(name)`: the version lookup does not answer `null`. */
    method HasInstall(name: string) returns (r: Result<bool, TypeError>)
      ensures r == Installed(obj, name)
    {
      var version := GetVersion(name);
      if version.Err? {
        return Err(version.error);
      }
      return Ok(version.value != Null);
    }

    /** `refresh()`: reloads the manifest from disk (`onDisk`) and clears the flag. */
    method Refresh(onDisk: Object)
      modifies this
      ensures obj == onDisk && !dirty
      ensures disk == onDisk && Saved()
    {
      obj := onDisk;
      dirty := false;
      disk := onDisk;
    }

    /**
     * `write()`: the manifest persisted to `path`, or None when the handle is
     * clean. Writing leaves the manifest and the flag as they were; after it the
     * file holds the handle's manifest whenever the handle was dirty or saved.
     */
    method Write() returns (written: Option<Object>)
      modifies this
      ensures obj == old(obj) && dirty == old(dirty)
      ensures dirty ==> written == Some(obj) && disk == obj
      ensures !dirty ==> written.None? && disk == old(disk)
      ensures old(Saved()) ==> obj == disk
    {
      if !dirty {
        return None;
      }
      written := Some(obj);
      disk := obj;
    }
  }
}
