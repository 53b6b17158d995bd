/**
 * Properties of a run of `exec`, stated over the events it produces: the tasks
 * run once each in list order, the manifest write sits between the task phase
 * and the install and hook phases, `install` gets exactly the collected
 * dependencies, and every registered hook runs, a failing one costing a warning only.
 */
module InitProperties {
  import opened Wrappers
  import opened Json
  import opened Manifest
  import opened Utils
  import opened Init

  predicate IsTaskMark(e: Event) { e.TaskStarted? || e.TaskFinished? }
  predicate IsDepAdded(e: Event) { e.DepAdded? }
  predicate IsRegistration(e: Event) { e.HookRegistered? }
  predicate IsWrite(e: Event) { e.WriteCalled? }
  predicate IsInstall(e: Event) { e.InstallCalled? }
  predicate IsHookResult(e: Event) { e.HookRan? || e.HookFailed? }

  /** The events of a trace that `keep` selects, in trace order. */
  function Filter(t: seq<Event>, keep: Event -> bool): seq<Event>
    decreases |t|
  {
    if |t| == 0 then []
    else Filter(t[..|t| - 1], keep) + (if keep(t[|t| - 1]) then [t[|t| - 1]] else [])
  }

  /** The phase an event belongs to: tasks (0), manifest write (1), install (2), post-install hooks (3). */
  function Rank(e: Event): nat {
    match e
    case WriteCalled(_) => 1
    case InstallCalled(_) => 2
    case HookRan(_) => 3
    case HookFailed(_, _) => 3
    case _ => 0
  }

  /** Printed lines occur in every phase and have no rank. */
  predicate Ranked(e: Event) { !e.Printed? }

  predicate RanksWithin(t: seq<Event>, lo: nat, hi: nat) {
    forall e :: e in t && Ranked(e) ==> lo <= Rank(e) <= hi
  }

  /** No event of a later phase comes before an event of an earlier one. */
  predicate InPhaseOrder(t: seq<Event>) {
    forall i, j :: 0 <= i < j < |t| && Ranked(t[i]) && Ranked(t[j]) ==> Rank(t[i]) <= Rank(t[j])
  }

  /** Tasks 0 .. n-1, each started and finished before the next starts. */
  function Schedule(n: nat): seq<Event> {
    if n == 0 then [] else Schedule(n - 1) + [TaskStarted(n - 1), TaskFinished(n - 1)]
  }

  lemma {:induction false} FilterAppend(a: seq<Event>, b: seq<Event>, keep: Event -> bool)
    ensures Filter(a + b, keep) == Filter(a, keep) + Filter(b, keep)
    decreases |b|
  {
    if |b| == 0 {
      assert a + b == a;
    } else {
      assert (a + b)[..|a + b| - 1] == a + b[..|b| - 1];
      assert (a + b)[|a + b| - 1] == b[|b| - 1];
      FilterAppend(a, b[..|b| - 1], keep);
    }
  }

  lemma {:induction false} FilterNone(t: seq<Event>, keep: Event -> bool)
    requires forall e :: e in t ==> !keep(e)
    ensures Filter(t, keep) == []
    decreases |t|
  {
    if |t| > 0 {
      assert t[|t| - 1] in t;
      FilterNone(t[..|t| - 1], keep);
    }
  }

  lemma {:induction false} FilterAll(t: seq<Event>, keep: Event -> bool)
    requires forall e :: e in t ==> keep(e)
    ensures Filter(t, keep) == t
    decreases |t|
  {
    if |t| > 0 {
      assert t[|t| - 1] in t;
      FilterAll(t[..|t| - 1], keep);
      assert t[..|t| - 1] + [t[|t| - 1]] == t;
    }
  }

  lemma FilterFive(s1: seq<Event>, s2: seq<Event>, s3: seq<Event>, s4: seq<Event>, s5: seq<Event>, keep: Event -> bool)
    ensures Filter(s1 + s2 + s3 + s4 + s5, keep)
         == Filter(s1, keep) + Filter(s2, keep) + Filter(s3, keep) + Filter(s4, keep) + Filter(s5, keep)
  {
    FilterAppend(s1 + s2 + s3 + s4, s5, keep);
    FilterAppend(s1 + s2 + s3, s4, keep);
    FilterAppend(s1 + s2, s3, keep);
    FilterAppend(s1, s2, keep);
  }

  lemma {:induction false} SaysArePrints(ms: seq<Message>, dev: bool)
    ensures forall e :: e in Says(ms, dev) ==> e.Printed?
    decreases |ms|
  {
    if |ms| > 0 {
      SaysArePrints(ms[1..], dev);
    }
  }

  lemma DepEventsAppend(a: seq<Dep>, b: seq<Dep>)
    ensures DepEvents(a + b) == DepEvents(a) + DepEvents(b)
  {
    assert forall k :: 0 <= k < |a + b| ==> DepEvents(a + b)[k] == (DepEvents(a) + DepEvents(b))[k];
  }

  lemma RegistrationsAppend(a: seq<Hook>, b: seq<Hook>)
    ensures HookRegistrations(a + b) == HookRegistrations(a) + HookRegistrations(b)
  {
    assert forall k :: 0 <= k < |a + b| ==> HookRegistrations(a + b)[k] == (HookRegistrations(a) + HookRegistrations(b))[k];
  }

  /** The runner state the task phase keeps: accumulators mirror the trace, no later-phase event yet. */
  predicate Tracks(ph: Phase) {
    Filter(ph.trace, IsDepAdded) == DepEvents(ph.deps)
    && Filter(ph.trace, IsRegistration) == HookRegistrations(ph.hooks)
    && RanksWithin(ph.trace, 0, 0)
  }

  lemma FilterSingle(e: Event, keep: Event -> bool)
    ensures Filter([e], keep) == if keep(e) then [e] else []
  {
    assert [e][..0] == [];
  }

  /** Printed lines are none of the kinds the task phase counts. */
  lemma SaysFiltered(ms: seq<Message>, dev: bool)
    ensures var t := Says(ms, dev);
      Filter(t, IsDepAdded) == [] && Filter(t, IsRegistration) == [] && Filter(t, IsTaskMark) == []
  {
    SaysArePrints(ms, dev);
    FilterNone(Says(ms, dev), IsDepAdded);
    FilterNone(Says(ms, dev), IsRegistration);
    FilterNone(Says(ms, dev), IsTaskMark);
  }

  lemma DepEventsFiltered(ds: seq<Dep>)
    ensures var t := DepEvents(ds);
      Filter(t, IsDepAdded) == t && Filter(t, IsRegistration) == [] && Filter(t, IsTaskMark) == []
  {
    var t := DepEvents(ds);
    assert forall e :: e in t ==> e.DepAdded?;
    FilterAll(t, IsDepAdded);
    FilterNone(t, IsRegistration);
    FilterNone(t, IsTaskMark);
  }

  lemma RegistrationsFiltered(hs: seq<Hook>)
    ensures var t := HookRegistrations(hs);
      Filter(t, IsDepAdded) == [] && Filter(t, IsRegistration) == t && Filter(t, IsTaskMark) == []
  {
    var t := HookRegistrations(hs);
    assert forall e :: e in t ==> e.HookRegistered?;
    FilterNone(t, IsDepAdded);
    FilterAll(t, IsRegistration);
    FilterNone(t, IsTaskMark);
  }

  /** The events of one task, kind by kind, from the filters of its five parts. */
  lemma TaskFilter(i: nat, step: Step, dev: bool, keep: Event -> bool)
    ensures Filter(TaskEvents(i, step, dev), keep)
         == Filter([TaskStarted(i)], keep) + Filter(Says(step.messages, dev), keep)
            + Filter(DepEvents(step.deps), keep) + Filter(HookRegistrations(step.hooks), keep)
            + Filter([EndEvent(i, step.outcome)], keep)
  {
    FilterFive([TaskStarted(i)], Says(step.messages, dev), DepEvents(step.deps),
            HookRegistrations(step.hooks), [EndEvent(i, step.outcome)], keep);
  }

  /** The pushes of one task, as `addDep` received them. */
  lemma TaskDeps(i: nat, step: Step, dev: bool)
    ensures Filter(TaskEvents(i, step, dev), IsDepAdded) == DepEvents(step.deps)
  {
    TaskFilter(i, step, dev, IsDepAdded);
    FilterSingle(TaskStarted(i), IsDepAdded);
    SaysFiltered(step.messages, dev);
    DepEventsFiltered(step.deps);
    RegistrationsFiltered(step.hooks);
    FilterSingle(EndEvent(i, step.outcome), IsDepAdded);
  }

  /** The registrations of one task, as `onFinish` received them. */
  lemma TaskRegistrations(i: nat, step: Step, dev: bool)
    ensures Filter(TaskEvents(i, step, dev), IsRegistration) == HookRegistrations(step.hooks)
  {
    TaskFilter(i, step, dev, IsRegistration);
    FilterSingle(TaskStarted(i), IsRegistration);
    SaysFiltered(step.messages, dev);
    DepEventsFiltered(step.deps);
    RegistrationsFiltered(step.hooks);
    FilterSingle(EndEvent(i, step.outcome), IsRegistration);
  }

  /** One task is started, and marked finished exactly when it ends normally. */
  lemma TaskMarks(i: nat, step: Step, dev: bool)
    ensures Filter(TaskEvents(i, step, dev), IsTaskMark)
         == [TaskStarted(i)] + (if step.outcome.Finished? then [TaskFinished(i)] else [])
  {
    var body := Says(step.messages, dev) + DepEvents(step.deps) + HookRegistrations(step.hooks);
    assert TaskEvents(i, step, dev) == [TaskStarted(i)] + body + [EndEvent(i, step.outcome)];
    BodyHasNoMarks(step, dev);
    MarksAround(TaskStarted(i), body, EndEvent(i, step.outcome));
    FilterSingle(TaskStarted(i), IsTaskMark);
    EndEventMark(i, step.outcome);
  }

  lemma BodyHasNoMarks(step: Step, dev: bool)
    ensures Filter(Says(step.messages, dev) + DepEvents(step.deps) + HookRegistrations(step.hooks), IsTaskMark) == []
  {
    FilterThree(Says(step.messages, dev), DepEvents(step.deps), HookRegistrations(step.hooks), IsTaskMark);
    SaysFiltered(step.messages, dev);
    DepEventsFiltered(step.deps);
    RegistrationsFiltered(step.hooks);
  }

  lemma FilterThree(x: seq<Event>, y: seq<Event>, z: seq<Event>, keep: Event -> bool)
    ensures Filter(x + y + z, keep) == Filter(x, keep) + Filter(y, keep) + Filter(z, keep)
  {
    FilterAppend(x + y, z, keep);
    FilterAppend(x, y, keep);
  }

  lemma MarksAround(first: Event, body: seq<Event>, last: Event)
    requires Filter(body, IsTaskMark) == []
    ensures Filter([first] + body + [last], IsTaskMark) == Filter([first], IsTaskMark) + Filter([last], IsTaskMark)
  {
    FilterThree([first], body, [last], IsTaskMark);
  }

  lemma EndEventMark(i: nat, o: TaskOutcome)
    ensures Filter([EndEvent(i, o)], IsTaskMark) == if o.Finished? then [TaskFinished(i)] else []
  {
    FilterSingle(EndEvent(i, o), IsTaskMark);
  }

  lemma TaskRanks(i: nat, step: Step, dev: bool)
    ensures RanksWithin(TaskEvents(i, step, dev), 0, 0)
  {
    SaysArePrints(step.messages, dev);
  }

  /** One task: its pushes land in the accumulators in order, and it is started, then finished or halting. */
  lemma RunTaskTracks(ph: Phase, i: nat, step: Step, dev: bool)
    requires Tracks(ph)
    ensures var r := RunTask(ph, i, step, dev);
      Tracks(r)
      && Filter(r.trace, IsTaskMark) == Filter(ph.trace, IsTaskMark) + [TaskStarted(i)]
                                        + (if step.outcome.Finished? then [TaskFinished(i)] else [])
      && (r.halted.None? <==> step.outcome.Finished?)
      && (step.outcome.Throws? ==> r.halted == Some(TaskFailed(i, step.outcome.error)))
      && (step.outcome.ExitProcess? ==> r.halted == Some(Exited(step.outcome.code)))
  {
    var t := TaskEvents(i, step, dev);
    TaskDeps(i, step, dev);
    TaskRegistrations(i, step, dev);
    TaskMarks(i, step, dev);
    TaskRanks(i, step, dev);
    FilterAppend(ph.trace, t, IsDepAdded);
    FilterAppend(ph.trace, t, IsRegistration);
    FilterAppend(ph.trace, t, IsTaskMark);
    DepEventsAppend(ph.deps, step.deps);
    RegistrationsAppend(ph.hooks, step.hooks);
  }

  /** The task phase stopped inside task `k`: tasks before it ran whole, `k` started and halted the run. */
  predicate StoppedIn(ph: Phase, k: nat) {
    Filter(ph.trace, IsTaskMark) == Schedule(k) + [TaskStarted(k)]
    && ph.halted.Some?
    && (ph.halted.value.Exited? || (ph.halted.value.TaskFailed? && ph.halted.value.task == k))
  }

  /** The task loop from task `i` on: tasks run in order, each once, until the list ends or one halts. */
  lemma {:induction false} RunTasksTracks(tasks: seq<Task>, i: nat, ph: Phase, ctx: Context, dev: bool)
    requires i <= |tasks| && ph.halted.None? && Tracks(ph)
    requires Filter(ph.trace, IsTaskMark) == Schedule(i)
    ensures var r := RunTasks(tasks, i, ph, ctx, dev);
      Tracks(r)
      && (r.halted.None? ==> Filter(r.trace, IsTaskMark) == Schedule(|tasks|))
      && (r.halted.Some? ==> exists k :: i <= k < |tasks| && StoppedIn(r, k))
    decreases |tasks| - i
  {
    if i < |tasks| {
      var step := tasks[i](ctx.(manifest := ph.pkg.obj));
      var next := RunTask(ph, i, step, dev);
      RunTaskTracks(ph, i, step, dev);
      if next.halted.Some? {
        assert RunTasks(tasks, i, ph, ctx, dev) == next;
        assert StoppedIn(next, i);
      } else {
        RunTasksTracks(tasks, i + 1, next, ctx, dev);
      }
    }
  }

  lemma StartTracks(m: Object, config: Config)
    ensures Tracks(StartPhase(m, config))
    ensures Filter(StartPhase(m, config).trace, IsTaskMark) == []
  {
    var t := StartPhase(m, config).trace;
    FilterNone(t, IsDepAdded);
    FilterNone(t, IsRegistration);
    FilterNone(t, IsTaskMark);
  }

  /** The post-install events are hook results and printed lines only. */
  lemma {:induction false} HookEventsRanks(hs: seq<Hook>, dev: bool)
    ensures forall e :: e in HookEvents(hs, dev) ==> e.Printed? || IsHookResult(e)
    ensures RanksWithin(HookEvents(hs, dev), 3, 3)
    decreases |hs|
  {
    if |hs| > 0 {
      HookEventsRanks(hs[..|hs| - 1], dev);
    }
  }

  lemma HookResultFiltered(j: nat, h: Hook, dev: bool)
    ensures Filter(HookResult(j, h, dev), IsHookResult) == [ResultOf(j, h)]
  {
    var b := HookResult(j, h, dev);
    if h.failure.Some? {
      assert b == [HookFailed(j, h.failure.value)] + [Printed(Warn, WarnChannel, h.failure.value)];
      FilterAppend([HookFailed(j, h.failure.value)], [Printed(Warn, WarnChannel, h.failure.value)], IsHookResult);
    }
  }

  /** `results` holds, for each hook `j` of `hs`, its result, in order. */
  predicate ResultsMatch(results: seq<Event>, hs: seq<Hook>) {
    |results| == |hs| && forall j :: 0 <= j < |hs| ==> results[j] == ResultOf(j, hs[j])
  }

  /** The j-th hook result recorded is that of the j-th hook, whatever the hooks before it did. */
  lemma {:induction false} HookResultsInOrder(hs: seq<Hook>, dev: bool)
    ensures ResultsMatch(Filter(HookEvents(hs, dev), IsHookResult), hs)
    decreases |hs|
  {
    if |hs| > 0 {
      var n := |hs| - 1;
      var prefix := hs[..n];
      var a := HookEvents(prefix, dev);
      var b := HookResult(n, hs[n], dev);
      HookResultsInOrder(prefix, dev);
      assert HookEvents(hs, dev) == a + b;
      FilterAppend(a, b, IsHookResult);
      HookResultFiltered(n, hs[n], dev);
      ResultsExtend(Filter(a, IsHookResult), hs);
    }
  }

  /** One more hook adds its own result after those of the hooks before it. */
  lemma ResultsExtend(before: seq<Event>, hs: seq<Hook>)
    requires |hs| > 0 && ResultsMatch(before, hs[..|hs| - 1])
    ensures ResultsMatch(before + [ResultOf(|hs| - 1, hs[|hs| - 1])], hs)
  {
    var all := before + [ResultOf(|hs| - 1, hs[|hs| - 1])];
    forall j | 0 <= j < |hs| ensures all[j] == ResultOf(j, hs[j]) {
      if j < |hs| - 1 {
        assert all[j] == before[j] && hs[..|hs| - 1][j] == hs[j];
      }
    }
  }

  /** Every caught hook failure is followed at once by its warning line. */
  predicate FailuresWarned(t: seq<Event>) {
    forall i :: 0 <= i < |t| && t[i].HookFailed? ==> i + 1 < |t| && t[i + 1] == Printed(Warn, WarnChannel, t[i].error)
  }

  lemma {:induction false} HookFailuresWarned(hs: seq<Hook>, dev: bool)
    ensures FailuresWarned(HookEvents(hs, dev))
    decreases |hs|
  {
    if |hs| > 0 {
      var n := |hs| - 1;
      HookFailuresWarned(hs[..n], dev);
      var a := HookEvents(hs[..n], dev);
      var b := HookResult(n, hs[n], dev);
      var t := a + b;
      assert HookEvents(hs, dev) == t;
      forall i | 0 <= i < |t| && t[i].HookFailed?
        ensures i + 1 < |t| && t[i + 1] == Printed(Warn, WarnChannel, t[i].error)
      {
        if i < |a| {
          assert t[i] == a[i];
          assert i + 1 < |a| && t[i + 1] == a[i + 1];
        } else {
          assert t[i] == b[i - |a|];
          var e := hs[n].failure.value;
          assert b == [HookFailed(n, e), Printed(Warn, WarnChannel, e)];
          assert i == |a| && t[i + 1] == b[1];
        }
      }
    }
  }

  /**
   * After each hook result the next event, past a failure's one warning, is
   * another hook result or the end of the trace.
   */
  predicate HookResultsClose(t: seq<Event>) {
    forall i :: 0 <= i < |t| && IsHookResult(t[i]) ==> ClosedAt(t, i, if t[i].HookFailed? then i + 2 else i + 1)
  }

  /** Position `next` of `t` is its end or a hook result. */
  predicate ClosedAt(t: seq<Event>, i: int, next: int) {
    0 <= i < next <= |t| && (next == |t| || IsHookResult(t[next]))
  }

  lemma {:induction false} HookEventsClose(hs: seq<Hook>, dev: bool)
    ensures HookResultsClose(HookEvents(hs, dev))
    decreases |hs|
  {
    if |hs| > 0 {
      var n := |hs| - 1;
      HookEventsClose(hs[..n], dev);
      var a := HookEvents(hs[..n], dev);
      var b := HookResult(n, hs[n], dev);
      var t := a + b;
      assert HookEvents(hs, dev) == t;
      assert b[0] == ResultOf(n, hs[n]) && |b| == (if hs[n].failure.Some? then 2 else 1);
      forall i | 0 <= i < |t| && IsHookResult(t[i])
        ensures ClosedAt(t, i, if t[i].HookFailed? then i + 2 else i + 1)
      {
        var next := if t[i].HookFailed? then i + 2 else i + 1;
        if i < |a| {
          assert t[i] == a[i];
          assert ClosedAt(a, i, next);
          if next < |a| {
            assert t[next] == a[next];
          } else {
            assert next == |a| && t[next] == b[0];
          }
        } else {
          assert t[i] == b[i - |a|];
          assert i == |a|;
        }
      }
    }
  }

  /** Events without hook results in front of a closed hook segment keep it closed. */
  lemma NoHookResultBefore(p: seq<Event>, c: seq<Event>)
    requires forall e :: e in p ==> !IsHookResult(e)
    requires HookResultsClose(c)
    ensures HookResultsClose(p + c)
  {
    var t := p + c;
    forall i | 0 <= i < |t| && IsHookResult(t[i])
      ensures ClosedAt(t, i, if t[i].HookFailed? then i + 2 else i + 1)
    {
      assert i >= |p|;
      var ci := i - |p|;
      assert t[i] == c[ci] && IsHookResult(c[ci]);
      var next := if t[i].HookFailed? then i + 2 else i + 1;
      assert ClosedAt(c, ci, next - |p|);
      if next < |t| {
        assert t[next] == c[next - |p|];
      }
    }
  }

  lemma InstallEventsShape(deps: seq<Dep>, dev: bool)
    ensures var t := InstallEvents(deps, dev);
      RanksWithin(t, 2, 2)
      && (forall e :: e in t ==> e.Printed? || e == InstallCalled(deps))
      && ((exists j :: 0 <= j < |t| && t[j].InstallCalled?) <==> |deps| > 0)
  {
    var t := InstallEvents(deps, dev);
    if |deps| > 0 {
      assert t[|t| - 1] == InstallCalled(deps);
    }
  }

  /** Ordering survives concatenation when every rank of the left part is at most every rank of the right part. */
  lemma ConcatInPhaseOrder(a: seq<Event>, b: seq<Event>, r: nat)
    requires InPhaseOrder(a) && InPhaseOrder(b)
    requires RanksWithin(a, 0, r) && RanksWithin(b, r, 3)
    ensures InPhaseOrder(a + b)
  {
    var t := a + b;
    forall i, j | 0 <= i < j < |t| && Ranked(t[i]) && Ranked(t[j])
      ensures Rank(t[i]) <= Rank(t[j])
    {
      if j < |a| {
        assert t[i] == a[i] && t[j] == a[j];
      } else if i >= |a| {
        assert t[i] == b[i - |a|] && t[j] == b[j - |a|];
      } else {
        assert t[i] == a[i] && t[j] == b[j - |a|];
        assert a[i] in a && b[j - |a|] in b;
      }
    }
  }

  lemma UniformInPhaseOrder(t: seq<Event>, r: nat)
    requires RanksWithin(t, r, r)
    ensures InPhaseOrder(t)
  {
    forall i, j | 0 <= i < j < |t| && Ranked(t[i]) && Ranked(t[j])
      ensures Rank(t[i]) <= Rank(t[j])
    {
      assert t[i] in t && t[j] in t;
    }
  }

  lemma NoHookFailureBefore(p: seq<Event>, c: seq<Event>)
    requires forall e :: e in p ==> !e.HookFailed?
    requires FailuresWarned(c)
    ensures FailuresWarned(p + c)
  {
    var t := p + c;
    forall i | 0 <= i < |t| && t[i].HookFailed?
      ensures i + 1 < |t| && t[i + 1] == Printed(Warn, WarnChannel, t[i].error)
    {
      assert i >= |p|;
      assert t[i] == c[i - |p|];
      assert t[i + 1] == c[i + 1 - |p|];
    }
  }

  /** How the task loop over `n` tasks ended: all run in order, or stopped inside one of them. */
  predicate LoopEnded(ph: Phase, n: nat) {
    Tracks(ph)
    && (ph.halted.None? ==> Filter(ph.trace, IsTaskMark) == Schedule(n))
    && (ph.halted.Some? ==> exists k :: 0 <= k < n && StoppedIn(ph, k))
  }

  /** The task loop's end phase, for any task list. */
  lemma TaskPhaseFacts(env: Env, tasks: seq<Task>, config: Config)
    ensures LoopEnded(TaskPhase(env, tasks, config), |tasks|)
  {
    StartTracks(env.manifest, config);
    RunTasksTracks(tasks, 0, StartPhase(env.manifest, config), StartContext(env, config), IsDevMode(env.nodeEnv));
  }


  /** The events of the task phase include no write, install or hook result. */
  lemma TaskPhaseClean(a: seq<Event>)
    requires RanksWithin(a, 0, 0)
    ensures forall e :: e in a ==> !IsWrite(e) && !IsHookResult(e) && !e.InstallCalled?
  {
    forall e | e in a ensures !IsWrite(e) && !IsHookResult(e) && !e.InstallCalled? {
      assert Ranked(e) ==> Rank(e) == 0;
    }
  }

  lemma FilterFour(a: seq<Event>, w: seq<Event>, b: seq<Event>, c: seq<Event>, keep: Event -> bool)
    ensures Filter(a + w + b + c, keep) == Filter(a, keep) + Filter(w, keep) + Filter(b, keep) + Filter(c, keep)
  {
    FilterAppend(a + w + b, c, keep);
    FilterAppend(a + w, b, keep);
    FilterAppend(a, w, keep);
  }

  /** A kind of event that only the first part holds is filtered from the first part alone. */
  lemma FilterFirstOfFour(a: seq<Event>, w: seq<Event>, b: seq<Event>, c: seq<Event>, keep: Event -> bool)
    requires forall e :: e in w + b + c ==> !keep(e)
    ensures Filter(a + w + b + c, keep) == Filter(a, keep)
  {
    FilterFour(a, w, b, c, keep);
    FilterNone(w, keep);
    FilterNone(b, keep);
    FilterNone(c, keep);
  }

  /** A completed run's trace: the task phase, the write, the install, the hooks. */
  lemma FinishSplit(ph: Phase, dev: bool)
    ensures Finish(ph, dev).trace
      == ph.trace + [WriteCalled(Written(ph.pkg))] + InstallEvents(ph.deps, dev) + HookEvents(ph.hooks, dev)
  {
  }

  /** The events after the task phase hold no task mark, push or registration. */
  lemma FinishRestKinds(ph: Phase, dev: bool)
    ensures var rest := [WriteCalled(Written(ph.pkg))] + InstallEvents(ph.deps, dev) + HookEvents(ph.hooks, dev);
      forall e :: e in rest ==> !IsTaskMark(e) && !IsDepAdded(e) && !IsRegistration(e)
  {
    InstallEventsShape(ph.deps, dev);
    HookEventsRanks(ph.hooks, dev);
  }

  /** The phases of a completed run follow one another. */
  lemma FinishOrder(ph: Phase, dev: bool)
    requires Tracks(ph)
    ensures InPhaseOrder(Finish(ph, dev).trace)
  {
    var a := ph.trace;
    var w := [WriteCalled(Written(ph.pkg))];
    var b := InstallEvents(ph.deps, dev);
    var c := HookEvents(ph.hooks, dev);
    FinishSplit(ph, dev);
    InstallEventsShape(ph.deps, dev);
    HookEventsRanks(ph.hooks, dev);
    UniformInPhaseOrder(a, 0);
    UniformInPhaseOrder(w, 1);
    UniformInPhaseOrder(b, 2);
    UniformInPhaseOrder(c, 3);
    ConcatInPhaseOrder(a, w, 1);
    ConcatInPhaseOrder(a + w, b, 2);
    ConcatInPhaseOrder(a + w + b, c, 3);
  }

  /** A completed run's task marks, pushes and registrations are the task phase's. */
  lemma FinishTaskKinds(ph: Phase, dev: bool)
    requires Tracks(ph)
    ensures var t := Finish(ph, dev).trace;
      Filter(t, IsTaskMark) == Filter(ph.trace, IsTaskMark)
      && Filter(t, IsDepAdded) == DepEvents(ph.deps)
      && Filter(t, IsRegistration) == HookRegistrations(ph.hooks)
  {
    var a := ph.trace;
    var w := [WriteCalled(Written(ph.pkg))];
    var b := InstallEvents(ph.deps, dev);
    var c := HookEvents(ph.hooks, dev);
    FinishSplit(ph, dev);
    FinishRestKinds(ph, dev);
    FilterFirstOfFour(a, w, b, c, IsTaskMark);
    FilterFirstOfFour(a, w, b, c, IsDepAdded);
    FilterFirstOfFour(a, w, b, c, IsRegistration);
  }

  /** A completed run calls `write` exactly once. */
  lemma FinishWrites(ph: Phase, dev: bool)
    requires Tracks(ph)
    ensures Filter(Finish(ph, dev).trace, IsWrite) == [WriteCalled(Written(ph.pkg))]
  {
    var a := ph.trace;
    var w := [WriteCalled(Written(ph.pkg))];
    var b := InstallEvents(ph.deps, dev);
    var c := HookEvents(ph.hooks, dev);
    FinishSplit(ph, dev);
    TaskPhaseFiltered(a);
    InstallFiltered(ph.deps, dev);
    HooksFiltered(ph.hooks, dev);
    FilterSingle(w[0], IsWrite);
    FilterFour(a, w, b, c, IsWrite);
  }

  lemma TaskPhaseFiltered(a: seq<Event>)
    requires RanksWithin(a, 0, 0)
    ensures Filter(a, IsWrite) == [] && Filter(a, IsHookResult) == []
  {
    TaskPhaseClean(a);
    FilterNone(a, IsWrite);
    FilterNone(a, IsHookResult);
  }

  lemma InstallFiltered(deps: seq<Dep>, dev: bool)
    ensures Filter(InstallEvents(deps, dev), IsWrite) == []
    ensures Filter(InstallEvents(deps, dev), IsHookResult) == []
  {
    InstallEventsShape(deps, dev);
    FilterNone(InstallEvents(deps, dev), IsWrite);
    FilterNone(InstallEvents(deps, dev), IsHookResult);
  }

  lemma HooksFiltered(hs: seq<Hook>, dev: bool)
    ensures Filter(HookEvents(hs, dev), IsWrite) == []
  {
    HookEventsRanks(hs, dev);
    FilterNone(HookEvents(hs, dev), IsWrite);
  }



  /** A completed run calls `install` once when something was pushed, and not at all otherwise. */
  lemma FinishInstallOnce(ph: Phase, dev: bool)
    requires Tracks(ph)
    ensures Filter(Finish(ph, dev).trace, IsInstall) == if |ph.deps| > 0 then [InstallCalled(ph.deps)] else []
  {
    var a := ph.trace;
    var w := [WriteCalled(Written(ph.pkg))];
    var b := InstallEvents(ph.deps, dev);
    var c := HookEvents(ph.hooks, dev);
    FinishSplit(ph, dev);
    TaskPhaseClean(a);
    FilterNone(a, IsInstall);
    FilterSingle(w[0], IsInstall);
    HookEventsRanks(ph.hooks, dev);
    FilterNone(c, IsInstall);
    if |ph.deps| > 0 {
      var lines := Say(Info, InstallingText, dev) + Say(Info, PendingText(ph.deps), dev);
      assert b == lines + [InstallCalled(ph.deps)];
      assert forall e: Event :: e in lines ==> e.Printed?;
      FilterNone(lines, IsInstall);
      FilterSingle(InstallCalled(ph.deps), IsInstall);
      FilterAppend(lines, [InstallCalled(ph.deps)], IsInstall);
    }
    FilterFour(a, w, b, c, IsInstall);
  }

  /** A completed run calls `install` only in its install phase, with the collected entries. */
  lemma FinishInstall(ph: Phase, dev: bool)
    requires Tracks(ph)
    ensures var t := Finish(ph, dev).trace;
      ((exists e :: e in t && e.InstallCalled?) <==> |ph.deps| > 0)
      && (forall e :: e in t && e.InstallCalled? ==> e == InstallCalled(ph.deps))
  {
    var a := ph.trace;
    var w := [WriteCalled(Written(ph.pkg))];
    var b := InstallEvents(ph.deps, dev);
    var c := HookEvents(ph.hooks, dev);
    var t := a + w + b + c;
    FinishSplit(ph, dev);
    InstallEventsShape(ph.deps, dev);
    HookEventsRanks(ph.hooks, dev);
    TaskPhaseClean(a);
    forall e: Event | e in t && e.InstallCalled? ensures e in b && e == InstallCalled(ph.deps) {
      assert e !in a && e !in w && e !in c;
    }
    if |ph.deps| > 0 {
      var j :| 0 <= j < |b| && b[j].InstallCalled?;
      assert b[j] in t;
    }
  }

  /** A completed run's hook results are those of the post-install phase. */
  lemma FinishHookResults(ph: Phase, dev: bool)
    requires Tracks(ph)
    ensures Filter(Finish(ph, dev).trace, IsHookResult) == Filter(HookEvents(ph.hooks, dev), IsHookResult)
  {
    var a := ph.trace;
    var w := [WriteCalled(Written(ph.pkg))];
    var b := InstallEvents(ph.deps, dev);
    var c := HookEvents(ph.hooks, dev);
    FinishSplit(ph, dev);
    TaskPhaseFiltered(a);
    InstallFiltered(ph.deps, dev);
    FilterSingle(w[0], IsHookResult);
    FilterFour(a, w, b, c, IsHookResult);
  }


  /** In a completed run every caught hook failure is followed by its warning. */
  lemma FinishWarned(ph: Phase, dev: bool)
    requires Tracks(ph)
    ensures FailuresWarned(Finish(ph, dev).trace)
  {
    var a := ph.trace;
    var w := [WriteCalled(Written(ph.pkg))];
    var b := InstallEvents(ph.deps, dev);
    var c := HookEvents(ph.hooks, dev);
    FinishSplit(ph, dev);
    InstallEventsShape(ph.deps, dev);
    HookFailuresWarned(ph.hooks, dev);
    TaskPhaseClean(a);
    assert forall e: Event :: e in a + w + b ==> !e.HookFailed?;
    NoHookFailureBefore(a + w + b, c);
  }

  /** In a completed run a hook that completes prints nothing after its result, and a failed one only its warning. */
  lemma FinishClosed(ph: Phase, dev: bool)
    requires Tracks(ph)
    ensures HookResultsClose(Finish(ph, dev).trace)
  {
    var a := ph.trace;
    var w := [WriteCalled(Written(ph.pkg))];
    var b := InstallEvents(ph.deps, dev);
    var c := HookEvents(ph.hooks, dev);
    FinishSplit(ph, dev);
    InstallEventsShape(ph.deps, dev);
    HookEventsClose(ph.hooks, dev);
    TaskPhaseClean(a);
    assert forall e: Event :: e in a + w + b ==> !IsHookResult(e);
    NoHookResultBefore(a + w + b, c);
  }

  /** The phases of `t` follow one another, with exactly one manifest write. */
  predicate WriteSeparatesPhases(t: seq<Event>) {
    InPhaseOrder(t) && |Filter(t, IsWrite)| == 1
  }

  /** `install` is called, once, iff some entry was pushed, and then with every pushed entry in push order. */
  predicate InstallMatchesPushes(t: seq<Event>) {
    ((exists e :: e in t && e.InstallCalled?) <==> |Filter(t, IsDepAdded)| > 0)
    && |Filter(t, IsInstall)| == (if |Filter(t, IsDepAdded)| > 0 then 1 else 0)
    && (forall e :: e in t && e.InstallCalled? ==> DepEvents(e.deps) == Filter(t, IsDepAdded))
  }

  /**
   * Each registered hook has one result, in registration order, the j-th
   * being the j-th registered hook's own; each failure is followed by its
   * warning, and after a result nothing but that one warning comes before the
   * next result or the end.
   */
  predicate HooksIsolated(t: seq<Event>) {
    var regs := Filter(t, IsRegistration);
    var results := Filter(t, IsHookResult);
    |results| == |regs|
    && (forall j :: 0 <= j < |regs| ==> regs[j].HookRegistered? && results[j] == ResultOf(j, regs[j].registered))
    && FailuresWarned(t)
    && HookResultsClose(t)
  }

  lemma FinishSeparates(ph: Phase, dev: bool)
    requires Tracks(ph)
    ensures WriteSeparatesPhases(Finish(ph, dev).trace)
  {
    FinishOrder(ph, dev);
    FinishWrites(ph, dev);
  }

  lemma FinishInstallMatches(ph: Phase, dev: bool)
    requires Tracks(ph)
    ensures InstallMatchesPushes(Finish(ph, dev).trace)
  {
    FinishTaskKinds(ph, dev);
    FinishInstall(ph, dev);
    FinishInstallOnce(ph, dev);
  }

  /** The registration events of `hs` against results that match `hs`. */
  lemma RegistrationsMatch(results: seq<Event>, hs: seq<Hook>)
    requires ResultsMatch(results, hs)
    ensures var regs := HookRegistrations(hs);
      |results| == |regs|
      && forall j :: 0 <= j < |regs| ==> regs[j].HookRegistered? && results[j] == ResultOf(j, regs[j].registered)
  {
  }

  lemma FinishHooksIsolated(ph: Phase, dev: bool)
    requires Tracks(ph)
    ensures HooksIsolated(Finish(ph, dev).trace)
  {
    FinishTaskKinds(ph, dev);
    FinishHookResults(ph, dev);
    FinishWarned(ph, dev);
    FinishClosed(ph, dev);
    HookResultsInOrder(ph.hooks, dev);
    RegistrationsMatch(Filter(HookEvents(ph.hooks, dev), IsHookResult), ph.hooks);
  }

  /**
   * The task marks of `run` over `n` tasks: a completed run starts and finishes
   * each task once, in list order; a run that a task ended shows the tasks
   * before it complete and that task started; a run that exits before the
   * tasks shows none.
   */
  predicate TasksInOrder(run: Run, n: nat) {
    var marks := Filter(run.trace, IsTaskMark);
    (run.outcome.Completed? ==> marks == Schedule(n))
    && (run.outcome.TaskFailed? ==> run.outcome.task < n && marks == Schedule(run.outcome.task) + [TaskStarted(run.outcome.task)])
    && (run.outcome.Exited? ==> marks == [] || exists k :: 0 <= k < n && marks == Schedule(k) + [TaskStarted(k)])
  }

  /** The task marks of a run that got past the prompt. */
  lemma AfterOptionsMarks(env: Env, tasks: seq<Task>, config: Config)
    ensures TasksInOrder(AfterOptions(env, tasks, config), |tasks|)
  {
    var ph := TaskPhase(env, tasks, config);
    TaskPhaseFacts(env, tasks, config);
    if ph.halted.None? {
      FinishTaskKinds(ph, IsDevMode(env.nodeEnv));
    } else {
      var k :| 0 <= k < |tasks| && StoppedIn(ph, k);
      assert AfterOptions(env, tasks, config) == Run(ph.halted.value, ph.trace);
    }
  }

  /**
   * The tasks run once each, in list order, each finishing before the next
   * starts; a task that throws or exits is the last one started.
   */
  lemma TasksRunOnceInOrder(env: Env, tasks: seq<Task>)
    ensures TasksInOrder(ExecSpec(env, tasks), |tasks|)
  {
    var run := ExecSpec(env, tasks);
    if Join(env.cwd, "package.json") !in env.files {
      FilterNone(run.trace, IsTaskMark);
    } else if Options(env.manifest, env.files, env.cwd, env.replies).Ok? {
      AfterOptionsMarks(env, tasks, Options(env.manifest, env.files, env.cwd, env.replies).value);
    }
  }

  /**
   * A completed run calls `write` once, after every task event and before the
   * install and every hook, and installs before any hook runs; a run that ends
   * early reaches none of the three.
   */
  lemma WriteBetweenTasksAndHooks(env: Env, tasks: seq<Task>)
    ensures var run := ExecSpec(env, tasks);
      (run.outcome.Completed? ==> WriteSeparatesPhases(run.trace))
      && (!run.outcome.Completed? ==> RanksWithin(run.trace, 0, 0))
  {
    if Join(env.cwd, "package.json") in env.files && Options(env.manifest, env.files, env.cwd, env.replies).Ok? {
      var config := Options(env.manifest, env.files, env.cwd, env.replies).value;
      var ph := TaskPhase(env, tasks, config);
      TaskPhaseFacts(env, tasks, config);
      if ph.halted.None? {
        FinishSeparates(ph, IsDevMode(env.nodeEnv));
      }
    }
  }

  /**
   * In a completed run `install` is called exactly when some task pushed a
   * dependency, with every pushed entry in push order.
   */
  lemma InstallGetsCollectedDeps(env: Env, tasks: seq<Task>)
    ensures var run := ExecSpec(env, tasks);
      run.outcome.Completed? ==> InstallMatchesPushes(run.trace)
  {
    if Join(env.cwd, "package.json") in env.files && Options(env.manifest, env.files, env.cwd, env.replies).Ok? {
      var config := Options(env.manifest, env.files, env.cwd, env.replies).value;
      var ph := TaskPhase(env, tasks, config);
      TaskPhaseFacts(env, tasks, config);
      if ph.halted.None? {
        FinishInstallMatches(ph, IsDevMode(env.nodeEnv));
      }
    }
  }

  /**
   * In a completed run every registered hook runs, in registration order;
   * the j-th result is the j-th hook's, whatever the hooks before it did, and
   * each failure is followed by its warning line.
   */
  lemma HooksRunInRegistrationOrder(env: Env, tasks: seq<Task>)
    ensures var run := ExecSpec(env, tasks);
      run.outcome.Completed? ==> HooksIsolated(run.trace)
  {
    if Join(env.cwd, "package.json") in env.files && Options(env.manifest, env.files, env.cwd, env.replies).Ok? {
      var config := Options(env.manifest, env.files, env.cwd, env.replies).value;
      var ph := TaskPhase(env, tasks, config);
      TaskPhaseFacts(env, tasks, config);
      if ph.halted.None? {
        FinishHooksIsolated(ph, IsDevMode(env.nodeEnv));
      }
    }
  }

  /** Without `package.json` the run prints one error and exits with code 1, before any prompt. */
  lemma MissingManifestExits(env: Env, tasks: seq<Task>)
    requires Join(env.cwd, "package.json") !in env.files
    ensures ExecSpec(env, tasks) == Run(Exited(1), [Printed(Error, ErrorChannel, NoManifestText), ProcessExited(1)])
  {
  }

  /** A manifest whose `dependencies` is missing or not a table ends `exec` in `getOptions`, before the prompt and every task. */
  lemma NoRuntimeTableFails(env: Env, tasks: seq<Task>)
    requires Join(env.cwd, "package.json") in env.files
    requires !Searchable(env.manifest, Dependencies)
    ensures ExecSpec(env, tasks) == Run(OptionsFailed(InOperatorOnNonObject(Dependencies)), [])
  {
    DefaultTypeNeedsRuntimeTable(env.manifest);
  }

  /** `init` outside a git repository: after the prompt, `pre` prints its error and exits with code 0; nothing is written. */
  lemma InitOutsideGitExits(env: Env, config: Config)
    requires Join(env.cwd, "package.json") in env.files
    requires Options(env.manifest, env.files, env.cwd, env.replies) == Ok(config)
    requires !IsGitRepo(env.files, env.cwd, env.cwd)
    ensures ExecSpec(env, InitTasks(env.files, env.cwd))
         == Run(Exited(0), [Prompted(config), TaskStarted(0), Printed(Error, ErrorChannel, NotGitText), ProcessExited(0)])
  {
    var dev := IsDevMode(env.nodeEnv);
    var tasks := InitTasks(env.files, env.cwd);
    var ctx := StartContext(env, config);
    var start := StartPhase(env.manifest, config);
    var step := tasks[0](ctx.(manifest := start.pkg.obj));
    assert step == Step([], [Message(Error, NotGitText)], [], [], ExitProcess(0));
    assert Says(step.messages, dev) == [Printed(Error, ErrorChannel, NotGitText)];
    var next := RunTask(start, 0, step, dev);
    assert next.trace == [Prompted(config), TaskStarted(0), Printed(Error, ErrorChannel, NotGitText), ProcessExited(0)];
    assert TaskPhase(env, tasks, config) == RunTasks(tasks, 1, next, ctx, dev) == next;
  }

  /**
   * `init` inside a git repository: the five tasks run and finish, none touches
   * the manifest, so `write` has nothing to save; nothing is installed and no hook runs.
   */
  lemma InitInGitWritesNothing(env: Env, config: Config)
    requires Join(env.cwd, "package.json") in env.files
    requires Options(env.manifest, env.files, env.cwd, env.replies) == Ok(config)
    requires IsGitRepo(env.files, env.cwd, env.cwd)
    ensures ExecSpec(env, InitTasks(env.files, env.cwd))
         == Run(Completed, [Prompted(config)] + Schedule(5) + [WriteCalled(None)])
  {
    var dev := IsDevMode(env.nodeEnv);
    var tasks := InitTasks(env.files, env.cwd);
    var ctx := StartContext(env, config);
    var ph0 := StartPhase(env.manifest, config);
    assert ph0.trace == [Prompted(config)] + Schedule(0);
    QuietRuns(tasks, 0, ph0, ctx, dev, [Prompted(config)]);
  }

  /** From task `i` on, tasks that each do nothing just add their start and end marks. */
  lemma {:induction false} QuietRuns(tasks: seq<Task>, i: nat, ph: Phase, ctx: Context, dev: bool, before: seq<Event>)
    requires i <= |tasks| && ph.halted.None? && ph.trace == before + Schedule(i)
    requires forall k :: i <= k < |tasks| ==> tasks[k](ctx.(manifest := ph.pkg.obj)) == Quiet
    ensures RunTasks(tasks, i, ph, ctx, dev) == ph.(trace := before + Schedule(|tasks|))
    decreases |tasks| - i
  {
    if i < |tasks| {
      var next := RunTask(ph, i, Quiet, dev);
      assert TaskEvents(i, Quiet, dev) == [TaskStarted(i), TaskFinished(i)];
      assert next == ph.(trace := before + Schedule(i + 1));
      QuietRuns(tasks, i + 1, next, ctx, dev, before);
    }
  }
}
