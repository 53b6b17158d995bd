/**
 * The `init` command: choosing the default project type, resolving the
 * prompt's answers, and `exec`, which runs the task pipeline over a shared
 * context, writes the manifest once, installs the collected dependencies and
 * then runs the deferred post-install hooks, each failure turned into a warning.
 * A run is described by the events it produces.
 */
module Init {
  import opened Wrappers
  import opened Json
  import opened Manifest
  import opened Utils

  datatype ProjectType = React | Vue | Taro | Standard

  /** `moduleType` choices; `NoModuleType` is the "None of these" choice (value ''). */
  datatype ModuleType = Es6 | CommonJS | NoModuleType

  datatype Environment = Browser | Node

  /** The prompt's answers; `gerritHost` is absent when the question was not asked. */
  datatype Config = Config(
    typescript: bool,
    projectType: ProjectType,
    loose: bool,
    moduleType: ModuleType,
    environment: Environment,
    gerritSupport: bool,
    gerritHost: Option<string>)

  /** What the user did with one question: accepted its default, or gave a value. */
  datatype Reply<T> = Default | Given(value: T)

  /** The user's replies to the seven questions, in the order they are asked. */
  datatype Replies = Replies(
    typescript: Reply<bool>,
    projectType: Reply<ProjectType>,
    loose: Reply<bool>,
    moduleType: Reply<ModuleType>,
    environment: Reply<Environment>,
    gerritSupport: Reply<bool>,
    gerritHost: Reply<string>)

  const DefaultGerritHost := "http://gerrit.wakedata-inc.com"

  function Answer<T>(r: Reply<T>, fallback: T): T {
    match r
    case Default => fallback
    case Given(v) => v
  }

  /** The ternary chain's priority: taro, then vue, then react, else standard. */
  function PriorityType(taro: bool, vue: bool, react: bool): ProjectType {
    if taro then Taro else if vue then Vue else if react then React else Standard
  }

  /**
   * `defaultType` in `getOptions`: asks `hasInstall` for `@tarojs/taro`, `vue`
   * and `react` in turn, stopping at the first yes; a TypeError of any asked
   * question ends `getOptions`.
   */
  function DefaultType(m: Object): (r: Result<ProjectType, TypeError>)
    ensures r.Err? ==> r.error == InOperatorOnNonObject(Dependencies) || r.error == InOperatorOnNonObject(DevDependencies)
    ensures r == Ok(Taro) <==> Installed(m, "@tarojs/taro") == Ok(true)
    ensures r == Ok(Vue) ==> Installed(m, "vue") == Ok(true)
    ensures r == Ok(React) ==> Installed(m, "react") == Ok(true)
    ensures r == Ok(Standard) ==>
      Installed(m, "@tarojs/taro") == Ok(false) && Installed(m, "vue") == Ok(false) && Installed(m, "react") == Ok(false)
  {
    match Installed(m, "@tarojs/taro")
    case Err(e) => Err(e)
    case Ok(true) => Ok(Taro)
    case Ok(false) =>
      match Installed(m, "vue")
      case Err(e) => Err(e)
      case Ok(true) => Ok(Vue)
      case Ok(false) =>
        match Installed(m, "react")
        case Err(e) => Err(e)
        case Ok(r) => Ok(if r then React else Standard)
  }

  /** With both tables present as objects, the default is the first of taro, vue and react that `hasInstall` finds. */
  lemma DefaultTypeByPriority(m: Object)
    requires Dependencies in m && m[Dependencies].Obj?
    requires DevDependencies in m && m[DevDependencies].Obj?
    ensures DefaultType(m).Ok?
    ensures DefaultType(m).value == PriorityType(
      Installed(m, "@tarojs/taro").value, Installed(m, "vue").value, Installed(m, "react").value)
  {
    HasInstallWhenTablesPresent(m, "@tarojs/taro");
    HasInstallWhenTablesPresent(m, "vue");
    HasInstallWhenTablesPresent(m, "react");
  }

  /** A taro entry decides the default before `vue` or `react` are looked at, so the dev table may be missing. */
  lemma TaroWinsAlone(m: Object)
    requires Dependencies in m && m[Dependencies].Obj?
    requires "@tarojs/taro" in m[Dependencies].fields && m[Dependencies].fields["@tarojs/taro"] != Null
    ensures DefaultType(m) == Ok(Taro)
  {
    VersionPrefersRuntime(m, "@tarojs/taro");
  }

  /** Without a `dependencies` object or array, the very first question throws. */
  lemma DefaultTypeNeedsRuntimeTable(m: Object)
    requires !Searchable(m, Dependencies)
    ensures DefaultType(m) == Err(InOperatorOnNonObject(Dependencies))
  {
  }

  /**
   * With a searchable `dependencies` that does not declare taro and no searchable
   * `devDependencies`, the first question, `@tarojs/taro`, already throws.
   */
  lemma NoDevTableNeedsTaro(m: Object)
    requires Searchable(m, Dependencies) && !Searchable(m, DevDependencies)
    requires !Declares(m, Dependencies, "@tarojs/taro")
    ensures Installed(m, "@tarojs/taro") == Err(InOperatorOnNonObject(DevDependencies))
    ensures DefaultType(m) == Err(InOperatorOnNonObject(DevDependencies))
  {
  }

  /**
   * A manifest with `react` in `dependencies` and no `devDependencies` throws at
   * the `@tarojs/taro` question, before `vue` or `react` are asked.
   */
  lemma ReactWithoutDevTableThrows(m: Object)
    requires m == map[Dependencies := Obj(map["react" := Str("^18.0.0")])]
    ensures Installed(m, "@tarojs/taro") == Err(InOperatorOnNonObject(DevDependencies))
    ensures DefaultType(m) == Err(InOperatorOnNonObject(DevDependencies))
  {
    assert "@tarojs/taro" != "react";
    NoDevTableNeedsTaro(m);
  }

  /** The `when` of the `gerritHost` question: it is asked only after a yes to `gerritSupport`. */
  predicate AskGerritHost(answersSoFar: Config) {
    answersSoFar.gerritSupport
  }

  /**
   * The answers `inquirer.prompt` returns for the given replies, with the
   * questions' defaults: Typescript iff a `tsconfig.json` exists, the computed
   * default type, loose mode on, ES modules, the browser, Gerrit support on,
   * and the fixed Gerrit address.
   */
  function ResolveAnswers(replies: Replies, hasTsConfig: bool, defaultType: ProjectType): (c: Config)
    ensures c.gerritHost.Some? <==> c.gerritSupport
    ensures replies.typescript == Default ==> c.typescript == hasTsConfig
    ensures replies.projectType == Default ==> c.projectType == defaultType
    ensures replies.loose == Default ==> c.loose
    ensures replies.moduleType == Default ==> c.moduleType == Es6
    ensures replies.environment == Default ==> c.environment == Browser
    ensures replies.gerritSupport == Default ==> c.gerritSupport
    ensures c.gerritSupport && replies.gerritHost == Default ==> c.gerritHost == Some(DefaultGerritHost)
  {
    var asked := Config(
      Answer(replies.typescript, hasTsConfig),
      Answer(replies.projectType, defaultType),
      Answer(replies.loose, true),
      Answer(replies.moduleType, Es6),
      Answer(replies.environment, Browser),
      Answer(replies.gerritSupport, true),
      None);
    if AskGerritHost(asked) then asked.(gerritHost := Some(Answer(replies.gerritHost, DefaultGerritHost)))
    else asked
  }

  /** What `getOptions(pkg, cwd)` returns for the manifest `m`. */
  function Options(m: Object, files: set<string>, cwd: string, replies: Replies): Result<Config, TypeError> {
    match DefaultType(m)
    case Err(e) => Err(e)
    case Ok(t) => Ok(ResolveAnswers(replies, Join(cwd, "tsconfig.json") in files, t))
  }

  /** What the process sees: existing paths, working directory, `NODE_ENV`, the parsed manifest, the user's replies. */
  datatype Env = Env(files: set<string>, cwd: string, nodeEnv: Option<string>, manifest: Object, replies: Replies)

  /** An entry pushed through `addDep`. */
  datatype Dep = Dep(name: string, version: Option<string>, dev: bool)

  /** A callback registered through `onFinish`: it completes, or throws the given error. */
  datatype Hook = Hook(failure: Option<string>)

  /** A change a task makes to the manifest handle. */
  datatype Mutation = SetAt(path: seq<string>, value: Json) | RemoveDepNamed(name: string)

  datatype Message = Message(level: Level, text: string)

  /** How a task ends: normally, by throwing, or by `process.exit(code)`. */
  datatype TaskOutcome = Finished | Throws(error: string) | ExitProcess(code: int)

  /** Everything one task does, in the order the runner applies it. */
  datatype Step = Step(
    mutations: seq<Mutation>,
    messages: seq<Message>,
    deps: seq<Dep>,
    hooks: seq<Hook>,
    outcome: TaskOutcome)

  /** What a task is given: the manifest as it stands when the task starts, and the rest of the context. */
  datatype Context = Context(manifest: Object, config: Config, cwd: string, eslintCfgPath: string)

  /** A task of the pipeline: what it does, depending on its context. */
  type Task = Context -> Step

  datatype Event =
    | Printed(level: Level, channel: Channel, text: string)
    | Prompted(config: Config)
    | TaskStarted(task: nat)
    | DepAdded(dep: Dep)
    | HookRegistered(registered: Hook)
    | TaskFinished(task: nat)
    | TaskThrew(task: nat, error: string)
    | ProcessExited(code: int)
    | WriteCalled(written: Option<Object>)
    | InstallCalled(deps: seq<Dep>)
    | HookRan(hook: nat)
    | HookFailed(hook: nat, error: string)

  /** How a run of `exec` ends: normally, by `process.exit`, by a task's error, or by `getOptions`' TypeError. */
  datatype Outcome = Completed | Exited(code: int) | TaskFailed(task: nat, error: string) | OptionsFailed(typeError: TypeError)

  datatype Run = Run(outcome: Outcome, trace: seq<Event>)

  /** The manifest handle's state. */
  datatype PkgState = PkgState(obj: Object, dirty: bool)

  /** The runner's state during the task phase; `halted` is set by a task that ends the run. */
  datatype Phase = Phase(pkg: PkgState, deps: seq<Dep>, hooks: seq<Hook>, trace: seq<Event>, halted: Option<Outcome>)

  const NoManifestText := "未找到 package.json"
  const NotGitText := "请在Git项目内使用该命令"
  const InstallingText := "正在安装依赖，这可能需要一点时间"

  /** The names of the deps, joined by ", ". */
  function JoinNames(ds: seq<Dep>): string {
    if |ds| == 0 then ""
    else if |ds| == 1 then ds[0].name
    else ds[0].name + ", " + JoinNames(ds[1..])
  }

  function PendingText(ds: seq<Dep>): string {
    "待安装依赖：" + JoinNames(ds)
  }

  /** `print(level, text)`: one line on its channel, or nothing when suppressed. */
  function Say(level: Level, text: string, dev: bool): seq<Event> {
    match PrintChannel(level, dev)
    case None => []
    case Some(ch) => [Printed(level, ch, text)]
  }

  function Says(ms: seq<Message>, dev: bool): seq<Event> {
    if |ms| == 0 then [] else Say(ms[0].level, ms[0].text, dev) + Says(ms[1..], dev)
  }

  function DepEvents(ds: seq<Dep>): seq<Event> {
    seq(|ds|, k requires 0 <= k < |ds| => DepAdded(ds[k]))
  }

  function HookRegistrations(hs: seq<Hook>): seq<Event> {
    seq(|hs|, k requires 0 <= k < |hs| => HookRegistered(hs[k]))
  }

  /** A mutation applied through the handle's `set` or `removeDep`. */
  function Apply(s: PkgState, mu: Mutation): PkgState {
    match mu
    case SetAt(p, v) => PkgState(SetPath(s.obj, p, v), true)
    case RemoveDepNamed(n) => PkgState(RemoveDependency(s.obj, n), s.dirty || RemoveMarksDirty(s.obj))
  }

  /** Mutations applied in order. */
  function ApplyAll(s: PkgState, mus: seq<Mutation>): PkgState
    decreases |mus|
  {
    if |mus| == 0 then s else Apply(ApplyAll(s, mus[..|mus| - 1]), mus[|mus| - 1])
  }

  /** A task's mutations never clear the dirty flag, and any `set` among them raises it. */
  lemma {:induction false} ApplyAllDirty(s: PkgState, mus: seq<Mutation>)
    ensures s.dirty ==> ApplyAll(s, mus).dirty
    ensures (exists k :: 0 <= k < |mus| && mus[k].SetAt?) ==> ApplyAll(s, mus).dirty
    decreases |mus|
  {
    if |mus| > 0 {
      var n := |mus| - 1;
      ApplyAllDirty(s, mus[..n]);
      if mus[n].SetAt? {
      } else if exists k :: 0 <= k < |mus| && mus[k].SetAt? {
        var k :| 0 <= k < |mus| && mus[k].SetAt?;
        assert k < n && mus[..n][k] == mus[k];
      }
    }
  }

  /** Mutations that leave the handle clean changed nothing: a clean handle holds no unsaved change. */
  lemma {:induction false} CleanMeansUnchanged(s: PkgState, mus: seq<Mutation>)
    requires !ApplyAll(s, mus).dirty
    ensures ApplyAll(s, mus).obj == s.obj
    decreases |mus|
  {
    if |mus| > 0 {
      var n := |mus| - 1;
      ApplyAllDirty(s, mus[..n]);
      CleanMeansUnchanged(s, mus[..n]);
    }
  }

  /** The event that closes task `i`'s part of the trace. */
  function EndEvent(i: nat, o: TaskOutcome): Event {
    match o
    case Finished => TaskFinished(i)
    case Throws(e) => TaskThrew(i, e)
    case ExitProcess(c) => ProcessExited(c)
  }

  /** How a task's ending ends the run, if it does. */
  function HaltOf(i: nat, o: TaskOutcome): Option<Outcome> {
    match o
    case Finished => None
    case Throws(e) => Some(TaskFailed(i, e))
    case ExitProcess(c) => Some(Exited(c))
  }

  /** The events of task `i`: started, its lines, its pushes to both accumulators, its ending. */
  function TaskEvents(i: nat, step: Step, dev: bool): seq<Event> {
    [TaskStarted(i)] + Says(step.messages, dev) + DepEvents(step.deps)
    + HookRegistrations(step.hooks) + [EndEvent(i, step.outcome)]
  }

  /** Task `i` run on the phase `ph`, doing what `step` describes. */
  function RunTask(ph: Phase, i: nat, step: Step, dev: bool): Phase {
    Phase(ApplyAll(ph.pkg, step.mutations), ph.deps + step.deps, ph.hooks + step.hooks,
          ph.trace + TaskEvents(i, step, dev), HaltOf(i, step.outcome))
  }

  /** `for (const task of tasks) await task(ctx)`, from task `i` on; a halted phase runs nothing more. */
  function RunTasks(tasks: seq<Task>, i: nat, ph: Phase, ctx: Context, dev: bool): Phase
    requires i <= |tasks|
    decreases |tasks| - i
  {
    if i == |tasks| || ph.halted.Some? then ph
    else RunTasks(tasks, i + 1, RunTask(ph, i, tasks[i](ctx.(manifest := ph.pkg.obj)), dev), ctx, dev)
  }

  /**
   * The loop only appends: to the trace and to both accumulators. A halted
   * phase is left as it is.
   */
  lemma {:induction false} RunTasksExtends(tasks: seq<Task>, i: nat, ph: Phase, ctx: Context, dev: bool)
    requires i <= |tasks|
    ensures var r := RunTasks(tasks, i, ph, ctx, dev);
      ph.trace <= r.trace && ph.deps <= r.deps && ph.hooks <= r.hooks
    ensures ph.halted.Some? ==> RunTasks(tasks, i, ph, ctx, dev) == ph
    decreases |tasks| - i
  {
    if i < |tasks| && ph.halted.None? {
      RunTasksExtends(tasks, i + 1, RunTask(ph, i, tasks[i](ctx.(manifest := ph.pkg.obj)), dev), ctx, dev);
    }
  }

  /** A halted phase is halted by an exit or a throw, and its trace ends with that event. */
  predicate HaltClosesTrace(r: Phase) {
    r.halted.Some? ==>
      |r.trace| > 0
      && ((r.halted.value.Exited? && r.trace[|r.trace| - 1] == ProcessExited(r.halted.value.code))
          || (r.halted.value.TaskFailed? && r.trace[|r.trace| - 1] == TaskThrew(r.halted.value.task, r.halted.value.error)))
  }

  /** A loop that halts ends its trace with the halting task's exit or throw: nothing runs after it. */
  lemma {:induction false} HaltEndsTrace(tasks: seq<Task>, i: nat, ph: Phase, ctx: Context, dev: bool)
    requires i <= |tasks|
    ensures ph.halted.None? ==> HaltClosesTrace(RunTasks(tasks, i, ph, ctx, dev))
    decreases |tasks| - i
  {
    if i < |tasks| && ph.halted.None? {
      HaltEndsTrace(tasks, i + 1, RunTask(ph, i, tasks[i](ctx.(manifest := ph.pkg.obj)), dev), ctx, dev);
    }
  }

  /** What `write()` persists for a handle in state `s`. */
  function Written(s: PkgState): Option<Object> {
    if s.dirty then Some(s.obj) else None
  }

  /** The install step: two Info lines and the `install` call, only for a non-empty list. */
  function InstallEvents(deps: seq<Dep>, dev: bool): seq<Event> {
    if |deps| == 0 then []
    else Say(Info, InstallingText, dev) + Say(Info, PendingText(deps), dev) + [InstallCalled(deps)]
  }

  /** What the post-install loop records for hook `j`. */
  function ResultOf(j: nat, h: Hook): Event {
    match h.failure
    case None => HookRan(j)
    case Some(e) => HookFailed(j, e)
  }

  /** Hook `j` run inside `try`: it completes, or its error is caught and printed as a warning. */
  function HookResult(j: nat, h: Hook, dev: bool): seq<Event> {
    [ResultOf(j, h)] + (if h.failure.Some? then Say(Warn, h.failure.value, dev) else [])
  }

  /** `for (const task of postTasks)`: every hook in registration order. */
  function HookEvents(hs: seq<Hook>, dev: bool): (r: seq<Event>)
    ensures |hs| <= |r| <= 2 * |hs|
    decreases |hs|
  {
    if |hs| == 0 then []
    else HookEvents(hs[..|hs| - 1], dev) + HookResult(|hs| - 1, hs[|hs| - 1], dev)
  }

  /** Every line of `t` is printed as the warning of the hook failure right before it. */
  predicate OnlyFailuresWarn(t: seq<Event>) {
    forall k :: 0 <= k < |t| && t[k].Printed? ==>
      k > 0 && t[k - 1].HookFailed? && t[k] == Printed(Warn, WarnChannel, t[k - 1].error)
  }

  /** In the post-install loop a hook that completes prints nothing, and a failed one prints only its warning. */
  lemma {:induction false} HookPrintsAreWarnings(hs: seq<Hook>, dev: bool)
    ensures OnlyFailuresWarn(HookEvents(hs, dev))
    decreases |hs|
  {
    if |hs| > 0 {
      var n := |hs| - 1;
      HookPrintsAreWarnings(hs[..n], dev);
      var a := HookEvents(hs[..n], dev);
      var b := HookResult(n, hs[n], dev);
      var t := a + b;
      assert HookEvents(hs, dev) == t;
      forall k | 0 <= k < |t| && t[k].Printed?
        ensures k > 0 && t[k - 1].HookFailed? && t[k] == Printed(Warn, WarnChannel, t[k - 1].error)
      {
        if k < |a| {
          assert t[k] == a[k] && t[k - 1] == a[k - 1];
        } else {
          assert t[k] == b[k - |a|] && b[0] == ResultOf(n, hs[n]);
          var e := hs[n].failure.value;
          assert b == [HookFailed(n, e), Printed(Warn, WarnChannel, e)];
          assert k == |a| + 1 && t[k - 1] == b[0];
        }
      }
    }
  }

  /** The phase the task loop starts from: a clean handle, empty accumulators, the prompt done. */
  function StartPhase(m: Object, config: Config): Phase {
    Phase(PkgState(m, false), [], [], [Prompted(config)], None)
  }

  /** The context `exec` builds for the tasks. */
  function StartContext(env: Env, config: Config): Context {
    Context(env.manifest, config, env.cwd, Join(env.cwd, ConfigureName))
  }

  /** The end of a run whose tasks all finished: write, install, then the post-install hooks. */
  function Finish(ph: Phase, dev: bool): Run {
    Run(Completed, ph.trace + [WriteCalled(Written(ph.pkg))]
                   + InstallEvents(ph.deps, dev) + HookEvents(ph.hooks, dev))
  }

  /** The phase the task loop ends in, given the prompt's answers. */
  function TaskPhase(env: Env, tasks: seq<Task>, config: Config): Phase {
    RunTasks(tasks, 0, StartPhase(env.manifest, config), StartContext(env, config), IsDevMode(env.nodeEnv))
  }

  /**
   * Tasks that leave the handle clean found it clean and changed nothing in it,
   * so a `write()` that saves nothing loses nothing.
   */
  lemma {:induction false} CleanTasksKeepManifest(tasks: seq<Task>, i: nat, ph: Phase, ctx: Context, dev: bool)
    requires i <= |tasks|
    ensures !RunTasks(tasks, i, ph, ctx, dev).pkg.dirty ==>
      !ph.pkg.dirty && RunTasks(tasks, i, ph, ctx, dev).pkg.obj == ph.pkg.obj
    decreases |tasks| - i
  {
    if i < |tasks| && ph.halted.None? {
      var step := tasks[i](ctx.(manifest := ph.pkg.obj));
      var next := RunTask(ph, i, step, dev);
      CleanTasksKeepManifest(tasks, i + 1, next, ctx, dev);
      ApplyAllDirty(ph.pkg, step.mutations);
      if !next.pkg.dirty {
        CleanMeansUnchanged(ph.pkg, step.mutations);
      }
    }
  }

  /** A task phase whose handle `write()` would not save ended with the manifest as loaded. */
  lemma NothingWrittenNothingChanged(env: Env, tasks: seq<Task>, config: Config)
    ensures Written(TaskPhase(env, tasks, config).pkg).None? ==> TaskPhase(env, tasks, config).pkg.obj == env.manifest
  {
    CleanTasksKeepManifest(tasks, 0, StartPhase(env.manifest, config), StartContext(env, config), IsDevMode(env.nodeEnv));
  }

  /** A run from the prompt's answers on. */
  function AfterOptions(env: Env, tasks: seq<Task>, config: Config): Run {
    var ph := TaskPhase(env, tasks, config);
    match ph.halted
    case Some(o) => Run(o, ph.trace)
    case None => Finish(ph, IsDevMode(env.nodeEnv))
  }

  /** What one run of `exec` does with the task list `tasks`. */
  function ExecSpec(env: Env, tasks: seq<Task>): (r: Run)
    ensures r.outcome.OptionsFailed? ==> r.trace == []
    ensures r.outcome.Completed? || r.outcome.TaskFailed? ==> |r.trace| > 0 && r.trace[0].Prompted?
    ensures r.outcome.Exited? ==> |r.trace| > 0 && r.trace[|r.trace| - 1] == ProcessExited(r.outcome.code)
    ensures r.outcome.TaskFailed? ==> r.trace[|r.trace| - 1] == TaskThrew(r.outcome.task, r.outcome.error)
  {
    if Join(env.cwd, "package.json") !in env.files then
      Run(Exited(1), Say(Error, NoManifestText, IsDevMode(env.nodeEnv)) + [ProcessExited(1)])
    else
      match Options(env.manifest, env.files, env.cwd, env.replies)
      case Err(e) => Run(OptionsFailed(e), [])
      case Ok(config) =>
        HaltEndsTrace(tasks, 0, StartPhase(env.manifest, config), StartContext(env, config), IsDevMode(env.nodeEnv));
        RunTasksExtends(tasks, 0, StartPhase(env.manifest, config), StartContext(env, config), IsDevMode(env.nodeEnv));
        AfterOptions(env, tasks, config)
  }

  /** A task that does nothing and ends normally. */
  const Quiet := Step([], [], [], [], Finished)

  /** `pre`: outside a git repository, prints an error and calls `process.exit()`, whose code is 0. */
  function PreTask(files: set<string>, processCwd: string): Task {
    (ctx: Context) =>
      if IsGitRepo(files, ctx.cwd, processCwd) then Quiet
      else Step([], [Message(Error, NotGitText)], [], [], ExitProcess(0))
  }

  /** `husky` reads the manifest's `husky` key and does nothing with it; `eslint`, `prettier` and `configuration` are empty. */
  function QuietTask(): Task {
    (ctx: Context) => Quiet
  }

  /** `[pre, husky, eslint, prettier, configuration]`. */
  function InitTasks(files: set<string>, processCwd: string): seq<Task> {
    [PreTask(files, processCwd), QuietTask(), QuietTask(), QuietTask(), QuietTask()]
  }

  /**
   * `pre` touches neither the manifest nor the accumulators; it finishes exactly
   * in a git repository and otherwise prints one error and exits with status 0.
   */
  lemma PreTaskAborts(files: set<string>, processCwd: string, ctx: Context)
    ensures PreTask(files, processCwd)(ctx).mutations == []
    ensures PreTask(files, processCwd)(ctx).deps == [] && PreTask(files, processCwd)(ctx).hooks == []
    ensures PreTask(files, processCwd)(ctx).outcome == Finished <==> IsGitRepo(files, ctx.cwd, processCwd)
    ensures !IsGitRepo(files, ctx.cwd, processCwd) ==>
      PreTask(files, processCwd)(ctx).outcome == ExitProcess(0)
      && PreTask(files, processCwd)(ctx).messages == [Message(Error, NotGitText)]
  {
  }

  /** `init` runs five tasks, and every one after `pre` does nothing and ends normally. */
  lemma InitTasksAfterPreQuiet(files: set<string>, processCwd: string, ctx: Context, i: nat)
    requires 0 < i < 5
    ensures |InitTasks(files, processCwd)| == 5
    ensures InitTasks(files, processCwd)[i](ctx) == Quiet
  {
  }

  /** `getOptions(pkg, cwd)`: the default type from the handle, then the prompt's answers. */
  method GetOptions(pkg: Pkg, files: set<string>, cwd: string, replies: Replies) returns (r: Result<Config, TypeError>)
    ensures r == Options(pkg.obj, files, cwd, replies)
  {
    var hasTsConfig := Join(cwd, "tsconfig.json") in files;
    var defaultType;
    var taro := pkg.HasInstall("@tarojs/taro");
    if taro.Err? {
      return Err(taro.error);
    }
    if taro.value {
      defaultType := Taro;
    } else {
      var vue := pkg.HasInstall("vue");
      if vue.Err? {
        return Err(vue.error);
      }
      if vue.value {
        defaultType := Vue;
      } else {
        var react := pkg.HasInstall("react");
        if react.Err? {
          return Err(react.error);
        }
        defaultType := if react.value then React else Standard;
      }
    }
    return Ok(ResolveAnswers(replies, hasTsConfig, defaultType));
  }

  /** The mutations of one task, made through the handle's `set` and `removeDep` in order. */
  method ApplyStep(pkg: Pkg, mutations: seq<Mutation>)
    modifies pkg
    ensures PkgState(pkg.obj, pkg.dirty) == ApplyAll(old(PkgState(pkg.obj, pkg.dirty)), mutations)
    ensures pkg.disk == old(pkg.disk) && (old(pkg.Saved()) ==> pkg.Saved())
  {
    ghost var start := PkgState(pkg.obj, pkg.dirty);
    var k := 0;
    while k < |mutations|
      invariant k <= |mutations|
      invariant PkgState(pkg.obj, pkg.dirty) == ApplyAll(start, mutations[..k])
      invariant pkg.disk == old(pkg.disk) && (old(pkg.Saved()) ==> pkg.Saved())
    {
      assert mutations[..k + 1][..k] == mutations[..k];
      match mutations[k] {
        case SetAt(p, v) => pkg.Set(p, v);
        case RemoveDepNamed(n) => pkg.RemoveDep(n);
      }
      k := k + 1;
    }
    assert mutations[..k] == mutations;
  }

  /** The post-install loop: each hook awaited inside `try`, a caught error printed as a warning. */
  method RunPostTasks(postTasks: seq<Hook>, dev: bool) returns (trace: seq<Event>)
    ensures trace == HookEvents(postTasks, dev)
  {
    trace := [];
    var j := 0;
    while j < |postTasks|
      invariant j <= |postTasks|
      invariant trace == HookEvents(postTasks[..j], dev)
    {
      assert postTasks[..j + 1][..j] == postTasks[..j];
      match postTasks[j].failure {
        case None =>
          trace := trace + [HookRan(j)];
        case Some(e) =>
          trace := trace + [HookFailed(j, e)] + Say(Warn, e, dev);
      }
      j := j + 1;
    }
    assert postTasks[..j] == postTasks;
  }

  /**
   * `for (const task of tasks) await task(ctx)`: each task sees the manifest as
   * the earlier tasks left it; its pushes go to the two accumulators. Returns the
   * phase reached: all tasks done, or halted by the task that threw or exited.
   */
  method RunTaskLoop(pkg: Pkg, tasks: seq<Task>, ctx: Context, dev: bool, prompted: seq<Event>) returns (ph: Phase)
    modifies pkg
    ensures ph.pkg == PkgState(pkg.obj, pkg.dirty)
    ensures ph == RunTasks(tasks, 0, Phase(old(PkgState(pkg.obj, pkg.dirty)), [], [], prompted, None), ctx, dev)
    ensures pkg.disk == old(pkg.disk) && (old(pkg.Saved()) ==> pkg.Saved())
  {
    ghost var final := RunTasks(tasks, 0, Phase(PkgState(pkg.obj, pkg.dirty), [], [], prompted, None), ctx, dev);
    var thingsNeedToInstall: seq<Dep> := [];
    var postTasks: seq<Hook> := [];
    var trace := prompted;
    var i := 0;
    while i < |tasks|
      invariant i <= |tasks|
      invariant final == RunTasks(tasks, i, Phase(PkgState(pkg.obj, pkg.dirty), thingsNeedToInstall, postTasks, trace, None), ctx, dev)
      invariant pkg.disk == old(pkg.disk) && (old(pkg.Saved()) ==> pkg.Saved())
    {
      var step := tasks[i](ctx.(manifest := pkg.obj));
      ApplyStep(pkg, step.mutations);
      thingsNeedToInstall := thingsNeedToInstall + step.deps;
      postTasks := postTasks + step.hooks;
      trace := trace + TaskEvents(i, step, dev);
      var halted := HaltOf(i, step.outcome);
      if halted.Some? {
        return Phase(PkgState(pkg.obj, pkg.dirty), thingsNeedToInstall, postTasks, trace, halted);
      }
      i := i + 1;
    }
    return Phase(PkgState(pkg.obj, pkg.dirty), thingsNeedToInstall, postTasks, trace, None);
  }

  /**
   * After the task loop: `pkg.write()`, the install step for a non-empty list, then
   * the post-install loop. A handle that held no unsaved change ends with the file
   * holding its manifest: no change is lost, as the hooks here do not touch the handle.
   */
  method FinishRun(pkg: Pkg, ph: Phase, dev: bool) returns (run: Run)
    requires ph.pkg == PkgState(pkg.obj, pkg.dirty)
    modifies pkg
    ensures run == Finish(ph, dev)
    ensures pkg.obj == old(pkg.obj) && pkg.dirty == old(pkg.dirty)
    ensures old(pkg.Saved()) ==> pkg.obj == pkg.disk
  {
    var written := pkg.Write();
    assert written == Written(ph.pkg);
    var trace := ph.trace + [WriteCalled(written)];
    if |ph.deps| > 0 {
      trace := trace + Say(Info, InstallingText, dev) + Say(Info, PendingText(ph.deps), dev);
      trace := trace + [InstallCalled(ph.deps)];
    }
    assert trace == ph.trace + [WriteCalled(Written(ph.pkg))] + InstallEvents(ph.deps, dev);
    var hookEvents := RunPostTasks(ph.hooks, dev);
    return Run(Completed, trace + hookEvents);
  }

  /** `exec()` with the task list given as a parameter. */
  method ExecWith(env: Env, tasks: seq<Task>) returns (run: Run)
    ensures run == ExecSpec(env, tasks)
  {
    var dev := IsDevMode(env.nodeEnv);
    var cwd := env.cwd;
    var pkgPath := Join(cwd, "package.json");
    var eslintCfgPath := Join(cwd, ConfigureName);
    if pkgPath !in env.files {
      return Run(Exited(1), Say(Error, NoManifestText, dev) + [ProcessExited(1)]);
    }
    var pkg := new Pkg(pkgPath, env.manifest);
    var options := GetOptions(pkg, env.files, cwd, env.replies);
    if options.Err? {
      return Run(OptionsFailed(options.error), []);
    }
    var config := options.value;
    var ph := RunTaskLoop(pkg, tasks, Context(pkg.obj, config, cwd, eslintCfgPath), dev, [Prompted(config)]);
    assert ph == RunTasks(tasks, 0, StartPhase(env.manifest, config), StartContext(env, config), dev);
    if ph.halted.Some? {
      return Run(ph.halted.value, ph.trace);
    }
    run := FinishRun(pkg, ph, dev);
    // The file now holds every change the tasks made.
    assert pkg.obj == pkg.disk;
  }

  /** `exec()`: the pipeline over its five tasks. */
  method Exec(env: Env) returns (run: Run)
    ensures run == ExecSpec(env, InitTasks(env.files, env.cwd))
  {
    run := ExecWith(env, InitTasks(env.files, env.cwd));
  }
}
