# code-standard CLI core, modelled in Dafny

This project models the core of the `code-standard` command-line tool.

- **The `Pkg` handle** on a project's `package.json` (`packages/cli/src/utils.js`):
  - a parsed manifest and a `dirty` flag;
  - path-addressed `get` and `set` with lodash's semantics;
  - `removeDep` over the `dependencies` and `devDependencies` tables;
  - the `getVersion` / `hasInstall` lookup, runtime table first;
  - `refresh`, and `write`, which persists only a dirty handle.
- **The `print` level dispatch**: which console channel a level goes to, and when `Debug` is suppressed.
- **The `init` command** (`packages/cli/src/cmds/init.js`):
  - the default project type (taro, then vue, then react, else standard);
  - the prompt's defaults and the `when` on the Gerrit host question;
  - the `pre` check that the working directory is a git repository;
  - `exec`, which checks for `package.json` and builds the handle. It then asks the questions and runs the tasks `pre, husky, eslint, prettier, configuration` in order over a shared context. Finally it calls `write` once, calls `install` when some task pushed a dependency, and runs the post-install hooks in registration order. A failing hook only costs a warning.

Modules:

- `Wrappers` holds `Option` and `Result`.
- `Json` holds the JSON value type and lodash `get`/`set` over key sequences.
- `Manifest` holds the manifest-level specification functions.
  - `RemoveDependency` and `LookupVersion`.
  - `Installed`. A JavaScript `TypeError` is an explicit `Err` outcome here.
- `Utils` holds the `print` dispatch, `isGitRepo` and the class `Pkg`. `Pkg`'s methods are proved against the `Manifest` and `Json` functions.
- `Init` holds the `init` pipeline. Tasks are modelled abstractly: a task is a function from its context to a `Step`. A `Step` records four things:
  - the manifest changes the task makes through the handle;
  - the lines it prints;
  - the dependencies and post-install hooks it pushes;
  - how it ends: normally, by throwing, or by `process.exit`.

  A run of `exec` is described by the run's outcome and a trace of events. The method `Init.ExecWith` is the imperative loop. It is proved equal to the specification function `Init.ExecSpec`.
- `InitProperties` proves the properties of `ExecSpec`'s traces:
  - the tasks run once each, in order;
  - the single write sits between the tasks and the install and hooks;
  - `install` gets exactly the pushed entries;
  - hooks run in order, and each one is isolated from the failures of the others.

Things the environment supplies are parameters of the model:

- the set of existing paths;
- `process.cwd()`;
- `NODE_ENV`;
- the manifest that `require` parses;
- the user's replies to the prompt.

## Behaviour of the code worth knowing

- `getVersion` applies `in` to `this.obj.dependencies` and then to `this.obj.devDependencies` (`utils.js:78`, `:81`). `in` throws a `TypeError` when the table it searches is missing, `null`, a string, a number or a boolean. A missing table is not treated as empty (`Manifest.VersionThrowsIff`).
  - Suppose `dependencies` is searchable and `devDependencies` is not. Then `hasInstall("@tarojs/taro")` throws unless `dependencies` declares taro, so `getOptions` fails at its first question (`init.js:88`; `Init.NoDevTableNeedsTaro`, `Init.ReactWithoutDevTableThrows`). A non-null taro entry makes the default taro (`Init.TaroWinsAlone`).
  - Without a searchable `dependencies`, `getOptions` also fails at its first question (`init.js:88`; `InitProperties.NoRuntimeTableFails`).
- `removeDep` sets `dirty` whenever a table is truthy, also when the name is not in it (`utils.js:45-53`).
- `write` does not reset `dirty` (`utils.js:101-106`).
- `pre` calls `process.exit()` without an argument, which exits with status 0 (`init.js:44`; `InitProperties.InitOutsideGitExits`).
- `exec` asks the prompt's questions before the first task runs (`init.js:201`, `:214-216`). Outside a git repository the questions therefore come before `pre`'s error.
- `Pkg` has no `unset` and no `setScript` method (`utils.js:31-107`).

## Model

| member | source | states |
|---|---|---|
| Json.GetPath | packages/cli/src/utils.js:59-61 | lodash `get` on a one-key path is the key's value when present and undefined otherwise; an empty path reads undefined |
| Json.SetPath | packages/cli/src/utils.js:67-70 | lodash `set`: an empty path or a reserved first key (`__proto__`, `constructor`, `prototype`) leaves the object unchanged; otherwise the object gains exactly the path's first key, and every other top-level entry is unchanged |
| Json.GetAfterSet | packages/cli/src/utils.js:59-70 | after `set(path, v)` on a non-empty path with no reserved key, `get(path)` returns `v`, over any intermediate values |
| Json.GetAfterSetElsewhere | packages/cli/src/utils.js:59-70 | `set(p, v)` does not change `get(q)` for any path `q` that departs from `p` at some key |
| Manifest.RemoveDependency | packages/cli/src/utils.js:44-54 | without a truthy table the manifest is returned unchanged; the tables stay truthy, so a later `removeDep` marks the handle as well |
| Manifest.RemoveDependencyEffect | packages/cli/src/utils.js:44-54 | `removeDep(name)` keeps the manifest's keys and every field other than the two tables; a table that is an object loses `name` and keeps its other entries; any other value stays as it was |
| Manifest.LookupVersion | packages/cli/src/utils.js:75-86 | the empty name answers `null`; a `TypeError` always names one of the two tables; a non-null answer is the `dependencies` entry when that table declares the name, and otherwise the `devDependencies` entry |
| Manifest.Installed | packages/cli/src/utils.js:91-93 | `hasInstall` throws exactly when `getVersion` throws, and otherwise holds exactly when the version is not `null` |
| Manifest.VersionPrefersRuntime | packages/cli/src/utils.js:78-80 | a name declared in `dependencies` answers with that entry, whatever `devDependencies` holds or lacks |
| Manifest.VersionFallsBackToDev | packages/cli/src/utils.js:81-83 | a name absent from a searchable `dependencies` and declared in `devDependencies` answers with the dev entry |
| Manifest.VersionNullWhenUndeclared | packages/cli/src/utils.js:78-85 | the empty name, or a name in neither of two searchable tables, answers `null` |
| Manifest.VersionThrowsIff | packages/cli/src/utils.js:75-86 | `getVersion` throws exactly when the name is non-empty and either `dependencies` is not searchable, or the name is not in it and `devDependencies` is not searchable |
| Manifest.HasInstallWhenTablesPresent | packages/cli/src/utils.js:75-93 | with both tables present as objects, `hasInstall` never throws and holds exactly when the winning entry is not `null` |
| Utils.PrintChannel | packages/cli/src/utils.js:135-153 | `Debug` is suppressed exactly outside development mode; `Error` goes to the error channel and only `Error` does; the same holds for `Warn` and the warn channel; `Info`, `Success` and a shown `Debug` go to the log channel |
| Utils.GitRepoIgnoresProcessCwd | packages/cli/src/utils.js:120-122 | given a non-empty directory, `isGitRepo` holds exactly when `.git` exists there, whatever the process's directory is |
| Utils.GitRepoDefaultsToProcessCwd | packages/cli/src/utils.js:120-122 | given an empty directory, `isGitRepo` answers as for the process's directory |
| Utils.Pkg.constructor | packages/cli/src/utils.js:35-39 | a new handle holds its path and the parsed manifest, is clean, and matches the file |
| Utils.Pkg.RemoveDep | packages/cli/src/utils.js:44-54 | the manifest becomes `RemoveDependency` of the old one; the flag becomes set when either table is truthy, and otherwise keeps its old value; a handle that held no unsaved change still holds none |
| Utils.Pkg.Get | packages/cli/src/utils.js:59-61 | returns `GetPath` of the manifest; the handle is unchanged |
| Utils.Pkg.Set | packages/cli/src/utils.js:67-70 | the manifest becomes `SetPath` of the old one, and the handle is dirty, so its change is not lost to a skipped write |
| Utils.Pkg.GetVersion | packages/cli/src/utils.js:75-86 | the step-by-step lookup, with its early returns and `TypeError`s, equals `LookupVersion` |
| Utils.Pkg.HasInstall | packages/cli/src/utils.js:91-93 | equals `Installed` on the current manifest, the error passed on |
| Utils.Pkg.Refresh | packages/cli/src/utils.js:95-99 | the manifest is the freshly parsed one, the handle is clean, and it matches the file |
| Utils.Pkg.Write | packages/cli/src/utils.js:101-106 | a dirty handle persists its whole manifest; a clean one writes nothing; the manifest and the flag are not changed; afterwards the file holds the manifest whenever the handle was dirty or held no unsaved change |
| Init.DefaultType | packages/cli/src/cmds/init.js:88-94 | a failure is a `TypeError` on one of the two tables; the default is taro exactly when `hasInstall("@tarojs/taro")` holds; vue and react are chosen only when installed; standard only when none of the three is |
| Init.DefaultTypeByPriority | packages/cli/src/cmds/init.js:88-94 | with both tables present, the default type is taro if `@tarojs/taro` is installed, else vue, else react, else standard |
| Init.TaroWinsAlone | packages/cli/src/cmds/init.js:88-89 | a non-null taro entry in `dependencies` makes the default taro, even without `devDependencies` |
| Init.DefaultTypeNeedsRuntimeTable | packages/cli/src/cmds/init.js:88 | without a searchable `dependencies`, choosing the default throws on the first question |
| Init.NoDevTableNeedsTaro | packages/cli/src/cmds/init.js:88 | with a searchable `dependencies` that does not declare taro and no searchable `devDependencies`, the `@tarojs/taro` question itself throws on the dev table, so choosing the default fails |
| Init.ReactWithoutDevTableThrows | packages/cli/src/cmds/init.js:88 | `{"dependencies": {"react": ...}}` with no dev table throws at the `@tarojs/taro` question, before `vue` or `react` are asked |
| Init.ResolveAnswers | packages/cli/src/cmds/init.js:96-179 | the Gerrit host is present in the answers exactly when Gerrit support was answered yes; every defaulted answer takes its question's default (`tsconfig.json` present, computed type, loose, es6, browser, Gerrit on, the fixed host) |
| Init.ApplyAllDirty | packages/cli/src/utils.js:44-70 | a task's mutations through the handle never clear the flag, and any `set` among them raises it |
| Init.CleanMeansUnchanged | packages/cli/src/utils.js:44-70 | mutations through the handle that leave it clean leave the manifest as it was: a clean handle holds no unsaved change |
| Init.PreTaskAborts | packages/cli/src/cmds/init.js:41-46 | `pre` changes nothing and pushes nothing; it finishes exactly inside a git repository, and otherwise prints its error and exits with status 0 |
| Init.InitTasksAfterPreQuiet | packages/cli/src/cmds/init.js:51-78 | `init`'s list has five tasks, and each task after `pre` does nothing and finishes |
| Init.RunTasksExtends | packages/cli/src/cmds/init.js:204-216 | the task loop only appends to the trace and to both accumulators; a halted phase is left as it is |
| Init.HaltEndsTrace | packages/cli/src/cmds/init.js:214-216 | a loop halted by a task is halted by an exit or a throw, and its trace ends with that event |
| Init.CleanTasksKeepManifest | packages/cli/src/cmds/init.js:214-216 | tasks that leave the handle clean found it clean and left its manifest unchanged |
| Init.NothingWrittenNothingChanged | packages/cli/src/cmds/init.js:214-219 | when `write` would save nothing, the manifest after the tasks is the one loaded, so no change is lost |
| Init.HookEvents | packages/cli/src/cmds/init.js:228-234 | the post-install loop records between `|hs|` and `2·|hs|` events in all for the hooks `hs`; the per-hook shape is stated by `Init.HookPrintsAreWarnings` and `InitProperties.HookResultsInOrder` |
| Init.HookPrintsAreWarnings | packages/cli/src/cmds/init.js:228-234 | in the post-install loop a hook that completes prints nothing, and every printed line is the `Warn` line carrying the error of the failed hook just before it |
| Init.ExecSpec | packages/cli/src/cmds/init.js:185-235 | a failed default-type choice leaves an empty trace; a completed or task-failed run starts with the prompt; an exiting run ends with the process exit, and a failed task's throw is the last event |
| Init.GetOptions | packages/cli/src/cmds/init.js:86-180 | the three `hasInstall` calls, stopping at the first yes or at a `TypeError`, followed by the prompt, equal `Options` |
| Init.ApplyStep | packages/cli/src/cmds/init.js:214-216 | the task's `set` and `removeDep` calls leave the handle in the state `ApplyAll` gives; a handle that held no unsaved change still holds none |
| Init.RunPostTasks | packages/cli/src/cmds/init.js:228-234 | the post-install loop's trace equals `HookEvents`: each hook's result in order, with a caught error followed by its warning |
| Init.RunTaskLoop | packages/cli/src/cmds/init.js:204-216 | the task loop over the shared context, each task seeing the manifest the earlier tasks left, ends in the phase `RunTasks` gives, and the handle holds that phase's state; a handle that held no unsaved change still holds none |
| Init.FinishRun | packages/cli/src/cmds/init.js:218-234 | write, then the install step for a non-empty list, then the post-install loop, equal `Finish`; since the modelled hooks do not touch the handle, a handle that held no unsaved change ends with the file holding its manifest |
| Init.ExecWith | packages/cli/src/cmds/init.js:185-235 | `exec` over any task list equals `ExecSpec`: a missing manifest prints and exits 1; a throwing default-type choice fails before the prompt; otherwise the tasks, then write, install and hooks |
| Init.Exec | packages/cli/src/cmds/init.js:185-235 | `exec` with its five tasks equals `ExecSpec` over `InitTasks` |
| InitProperties.RunTasksTracks | packages/cli/src/cmds/init.js:206-216 | from any task on, tasks run in order, each started and finished before the next; the accumulators hold the pushes in push order; a halting task is the last one started |
| InitProperties.HookResultsInOrder | packages/cli/src/cmds/init.js:228-234 | one result per hook; the j-th result is the j-th hook's own, whatever the earlier hooks did |
| InitProperties.HookFailuresWarned | packages/cli/src/cmds/init.js:229-233 | every caught hook failure is immediately followed by one `Warn` line carrying its error |
| InitProperties.TasksRunOnceInOrder | packages/cli/src/cmds/init.js:197-216 | a completed run starts and finishes each task once, in list order; a run ended by task k shows tasks 0..k-1 complete and k started; a run that exits before the tasks shows none |
| InitProperties.WriteBetweenTasksAndHooks | packages/cli/src/cmds/init.js:214-234 | a completed run calls `write` exactly once, and no write, install or hook event precedes a task event, no install or hook precedes the write, and no hook precedes the install; a run that ends early does none of these |
| InitProperties.InstallGetsCollectedDeps | packages/cli/src/cmds/init.js:206-225 | in a completed run `install` is called exactly once when some task pushed a dependency and never otherwise, with all pushed entries in push order |
| InitProperties.HooksRunInRegistrationOrder | packages/cli/src/cmds/init.js:207-234 | in a completed run every registered hook has one result, the j-th registration's; every failure is followed by its warning; after each result only that one warning comes before the next result or the end of the run |
| InitProperties.MissingManifestExits | packages/cli/src/cmds/init.js:190-193 | without `package.json` the run is one error line and exit code 1, with no prompt and no task |
| InitProperties.NoRuntimeTableFails | packages/cli/src/cmds/init.js:88-201 | a manifest without a searchable `dependencies` ends the run in `getOptions`, before the prompt and every task |
| InitProperties.InitOutsideGitExits | packages/cli/src/cmds/init.js:41-46 | outside a git repository `pre` prints its error after the prompt and exits with code 0; no later task starts and nothing is written |
| InitProperties.InitInGitWritesNothing | packages/cli/src/cmds/init.js:51-219 | inside a git repository the five tasks run and finish, none marks the handle dirty, so `write` saves nothing, and there is no install and no hook |

## Left out

- Arrays inside lodash paths: `get` and `set` treat an array or a primitive met on the path as missing, and `set` replaces it with an object. Index keys and array creation are not modelled.
- Arrays on the right of `in`: `getVersion` treats an array table as declaring no name. JavaScript would instead test the array's indexes and `length`.
- Inherited properties: `in` sees the prototype chain, for example a name like `toString`. The model sees own keys only.
- lodash's string-path parsing (dots and brackets): paths are key sequences.
- `path.join` normalisation: `Join` is a plain concatenation with `/`.
- The bytes that `JSON.stringify(obj, undefined, 2)` produces: `write` returns the manifest it would serialise.
- Floating-point JSON numbers: they are integers here.
- `require` and the module cache: the parsed manifest is a parameter of the constructor and of `refresh`. Parse errors are not modelled. The manifest is taken to be a JSON object (`Object`). A top level of `null` would make `this.obj.dependencies` throw in `removeDep` and `getVersion` (`utils.js:45`, `:76`). A top-level array is not represented either.
- The mechanics of `inquirer`: the replies are an input, and the model keeps the defaults and the `when` condition.
- `install` in `utils.js`: an empty stub, recorded only as the event of calling it.
- The `chalk` prefixes of `print` and the console functions themselves: only the chosen channel is kept.
- Asynchrony: everything is awaited in sequence, so a run is a plain sequential trace.
- The order within one task of its prints, mutations and pushes: a task's events are grouped by kind.
- `packages/cli/src/index.js` is not part of this model. It only registers the command with `commander`.
- `process.exit` inside a task is modelled as ending the run at once. It is not modelled as a process-level side effect.
- Init.ExecWith: the error a hook throws is modelled as its text, not as an `Error` object.
- Init.Mutation: a task changes the manifest only through `set` and `removeDep`. A task holds the handle as `ctx.pkg`, so it could also call `refresh()` or `write()`; that is not modelled. `Init.ApplyAllDirty`'s "never cleared" holds for these two mutations only.
- Init.Hook: a hook either completes or throws a fixed error. Its own prints, pushes, registrations and process exits are not modelled. Nor are changes to the manifest through `ctx.pkg` (`init.js:204-211`): a hook would make them after `write` (`init.js:219`), so they would mark the handle dirty and never be saved. The source's post-install loop walks the live `postTasks` array, so a hook registered by a hook would also run; the model's hook list is fixed when the loop starts.
- Manifest.DeleteKey: `delete` on an array table with an index name leaves a hole in the array. The model leaves an array table unchanged. `utils.js` is module code (`export`, `utils.js:159`) and so strict. In strict code, `delete` of a non-configurable property throws a `TypeError`, for example `length` of an array table or an index of a non-empty string table (`utils.js:46`, `:51`). The model does not throw there.
- Utils.Pkg.Write: the write cannot fail. A rejected `writeFile` (`utils.js:105`) would end `exec` at `await pkg.write()` (`init.js:219`), before the install step and every hook; `Init.Finish` has no such outcome.
- Json.GetPath: lodash `get` also reads inherited properties such as `constructor`. The model reads own keys only.
