/** Job ownership in every interleaving of clients, workers and callbacks. */
module ControllerRuns {
  import opened Wrappers
  import opened ControllerJobs

  type Tasks = map<string, Task>

  /** A stage is reached only after the ones before it. */
  predicate Staged(t: Task) {
    && (t.finalized ==> t.released)
    && (t.released ==> t.future.Cancelled? || t.outcome.Some?)
    && (t.outcome.Some? ==> t.future.Running? || t.future.Done?)
    && (t.future.Done? ==> t.finalized)
    && (t.persisted ==> t.recorded)
  }

  predicate AllStaged(tasks: Tasks) {
    forall id :: id in tasks ==> Staged(tasks[id])
  }

  /** An owner is an unreleased job of that workspace. */
  predicate OwnersWork(busy: map<string, string>, tasks: Tasks) {
    forall path :: path in busy ==> busy[path] in tasks && tasks[busy[path]].path == path && !tasks[busy[path]].released
  }

  /** An unreleased job owns its workspace. */
  predicate WorkersOwn(busy: map<string, string>, tasks: Tasks) {
    forall id :: id in tasks && !tasks[id].released ==> tasks[id].path in busy && busy[tasks[id].path] == id
  }

  predicate TargetsWork(targets: map<string, string>, tasks: Tasks) {
    forall machine :: machine in targets ==>
      && targets[machine] in tasks && tasks[targets[machine]].machine == Some(machine)
      && !tasks[targets[machine]].released
  }

  predicate WorkersHoldTargets(targets: map<string, string>, tasks: Tasks) {
    forall id :: id in tasks && !tasks[id].released && tasks[id].machine.Some? ==>
      tasks[id].machine.value in targets && targets[tasks[id].machine.value] == id
  }

  predicate Listed(live: seq<string>, tasks: Tasks) {
    && |live| <= JOB_LIMIT && (forall i :: 0 <= i < |live| ==> live[i] in tasks)
    && forall i, j :: 0 <= i < j < |live| ==> live[i] != live[j]
  }

  /** What is no longer listed was safe to retire. */
  predicate RetiredSafely(live: seq<string>, tasks: Tasks) {
    forall id :: id in tasks && id !in live ==> Retirable(tasks[id])
  }

  ghost predicate Inv(s: State) {
    && AllStaged(s.tasks) && OwnersWork(s.busy, s.tasks) && WorkersOwn(s.busy, s.tasks)
    && TargetsWork(s.targets, s.tasks) && WorkersHoldTargets(s.targets, s.tasks)
    && Listed(s.live, s.tasks) && RetiredSafely(s.live, s.tasks)
  }

  // ----- Steps -----

  lemma RetiredListed(s: State)
    requires Listed(s.live, s.tasks) && RetiredSafely(s.live, s.tasks)
    ensures Listed(Retired(s), s.tasks) && RetiredSafely(Retired(s), s.tasks)
    ensures forall id :: id in Retired(s) ==> id in s.live
  {
    if |s.live| >= JOB_LIMIT {
      WithoutListed(s.live, FirstRetirable(s.live, s.tasks), s.tasks);
    }
  }

  lemma WithoutListed(live: seq<string>, i: nat, tasks: Tasks)
    requires i <= |live| && Listed(live, tasks) && RetiredSafely(live, tasks)
    requires i < |live| ==> Retirable(tasks[live[i]])
    ensures Listed(Without(live, i), tasks) && RetiredSafely(Without(live, i), tasks)
    ensures forall id :: id in Without(live, i) ==> id in live
  {
    var left := Without(live, i);
    if i < |live| {
      forall k | 0 <= k < |left| ensures left[k] == live[if k < i then k else k + 1] {
      }
      forall id | id in live && id != live[i] ensures id in left {
        var k :| 0 <= k < |live| && live[k] == id;
        assert left[if k < i then k else k - 1] == id;
      }
    }
  }

  /** A new job, whose workspace and machine nobody owns. */
  lemma AdmitKeepsOwners(busy: map<string, string>, tasks: Tasks, id: string, t: Task)
    requires OwnersWork(busy, tasks) && WorkersOwn(busy, tasks) && id !in tasks && t.path !in busy && !t.released
    ensures OwnersWork(busy[t.path := id], tasks[id := t]) && WorkersOwn(busy[t.path := id], tasks[id := t])
  {
  }

  lemma AdmitKeepsTargets(targets: map<string, string>, tasks: Tasks, id: string, t: Task)
    requires TargetsWork(targets, tasks) && WorkersHoldTargets(targets, tasks) && id !in tasks && !t.released
    requires t.machine.Some? ==> t.machine.value !in targets
    ensures var targets' := if t.machine.Some? then targets[t.machine.value := id] else targets;
      TargetsWork(targets', tasks[id := t]) && WorkersHoldTargets(targets', tasks[id := t])
  {
  }

  lemma AdmitKeepsList(live: seq<string>, tasks: Tasks, id: string, t: Task)
    requires Listed(live, tasks) && RetiredSafely(live, tasks) && id !in tasks && |live| < JOB_LIMIT
    ensures Listed(live + [id], tasks[id := t]) && RetiredSafely(live + [id], tasks[id := t])
  {
    var l := live + [id];
    assert forall k :: 0 <= k < |live| ==> l[k] == live[k];
    assert l[|live|] == id;
    forall k | k in live ensures k in l {
      var n :| 0 <= n < |live| && live[n] == k;
      assert l[n] == k;
    }
  }

  lemma SubmitKeeps(workspaces: map<string, string>, s: State, r: Request, created: bool, accepted: bool)
    requires Inv(s) && r.id !in s.tasks
    ensures Inv(Submitting(workspaces, s, r, created, accepted).0)
  {
    RetiredListed(s);
    if Submitting(workspaces, s, r, created, accepted).1.None? {
      var t := Submitting(workspaces, s, r, created, accepted).0.tasks[r.id];
      AdmitKeepsOwners(s.busy, s.tasks, r.id, t);
      AdmitKeepsTargets(s.targets, s.tasks, r.id, t);
      AdmitKeepsList(Retired(s), s.tasks, r.id, t);
    }
  }

  /** A step of one job that neither releases it nor takes back what made it retirable. */
  predicate Progresses(before: Task, after: Task) {
    && after.path == before.path && after.machine == before.machine && after.released == before.released
    && Staged(after) && (Retirable(before) ==> Retirable(after))
  }

  lemma TaskKeeps(s: State, id: string, after: Task)
    requires Inv(s) && id in s.tasks && Progresses(s.tasks[id], after)
    ensures Inv(s.(tasks := s.tasks[id := after]))
  {
  }

  lemma ReleaseOwners(busy: map<string, string>, tasks: Tasks, id: string)
    requires OwnersWork(busy, tasks) && WorkersOwn(busy, tasks) && id in tasks && !tasks[id].released
    ensures var t := tasks[id].(released := true);
      OwnersWork(busy - {t.path}, tasks[id := t]) && WorkersOwn(busy - {t.path}, tasks[id := t])
  {
  }

  lemma ReleaseTargets(targets: map<string, string>, tasks: Tasks, id: string)
    requires TargetsWork(targets, tasks) && WorkersHoldTargets(targets, tasks) && id in tasks
    ensures var t := tasks[id].(released := true);
      TargetsWork(Disown(targets, id), tasks[id := t]) && WorkersHoldTargets(Disown(targets, id), tasks[id := t])
  {
  }

  lemma ReleaseKeeps(s: State, id: string)
    requires Inv(s) && id in s.tasks && MayRelease(s.tasks[id])
    ensures Inv(Finished(s.(tasks := s.tasks[id := s.tasks[id].(released := true)]), s.tasks[id].path, id))
  {
    ReleaseOwners(s.busy, s.tasks, id);
    ReleaseTargets(s.targets, s.tasks, id);
  }

  /** Cleanup that comes late, or twice, frees nobody else's workspace or machine. */
  lemma StaleCleanupIsHarmless(s: State, id: string)
    requires Inv(s) && id in s.tasks && s.tasks[id].released
    ensures Finished(s, s.tasks[id].path, id) == s
  {
    assert Disown(s.targets, id) == s.targets;
  }

  lemma StepKeeps(workspaces: map<string, string>, history: bool, s: State, a: Action)
    requires Inv(s)
    ensures Inv(Next(workspaces, history, s, a))
  {
    if a.Submits? {
      if a.request.id !in s.tasks {
        SubmitKeeps(workspaces, s, a.request, a.created, a.accepted);
      }
    } else if a.id in s.tasks {
      var t := s.tasks[a.id];
      if a.Releases? {
        if MayRelease(t) {
          ReleaseKeeps(s, a.id);
        }
      } else if a.CleansAgain? {
        if t.released {
          StaleCleanupIsHarmless(s, a.id);
        }
      } else {
        MovingProgresses(history, s.live, t, a);
        TaskKeeps(s, a.id, Moving(history, s.live, t, a));
      }
    }
  }

  lemma MovingProgresses(history: bool, live: seq<string>, t: Task, a: Action)
    requires Staged(t)
    ensures Progresses(t, Moving(history, live, t, a))
  {
  }

  lemma {:induction false} RunKeeps(workspaces: map<string, string>, history: bool, actions: seq<Action>)
    ensures Inv(Execute(workspaces, history, EMPTY, actions))
    decreases |actions|
  {
    if actions != [] {
      RunKeeps(workspaces, history, actions[..|actions| - 1]);
      StepKeeps(workspaces, history, Execute(workspaces, history, EMPTY, actions[..|actions| - 1]),
                actions[|actions| - 1]);
    }
  }

  // ----- What it buys -----

  /** At most one unfinished job per workspace path and per machine, and it is the owner. */
  lemma OneOwner(workspaces: map<string, string>, history: bool, actions: seq<Action>, a: string, b: string)
    ensures var s := Execute(workspaces, history, EMPTY, actions);
      a in s.tasks && b in s.tasks && !s.tasks[a].released && !s.tasks[b].released && a != b ==>
        && s.tasks[a].path != s.tasks[b].path
        && (s.tasks[a].machine.Some? ==> s.tasks[a].machine != s.tasks[b].machine)
        && s.tasks[a].path in s.busy && s.busy[s.tasks[a].path] == a
  {
    RunKeeps(workspaces, history, actions);
  }

  /** A job that polls as terminal no longer owns anything. */
  lemma TerminalOwnsNothing(workspaces: map<string, string>, history: bool, actions: seq<Action>, id: string)
    ensures var s := Execute(workspaces, history, EMPTY, actions);
      id in s.tasks && StatusOf(s.tasks[id]).Terminal() ==>
        && s.tasks[id].released
        && (forall path :: path in s.busy ==> s.busy[path] != id)
        && (forall machine :: machine in s.targets ==> s.targets[machine] != id)
  {
    RunKeeps(workspaces, history, actions);
    var s := Execute(workspaces, history, EMPTY, actions);
    assert id in s.tasks ==> Staged(s.tasks[id]);
  }

  /** The table never exceeds its limit, and what left it was terminal, finalized and persisted;
      a job still at work is always listed. */
  lemma OnlySafeRetirement(workspaces: map<string, string>, history: bool, actions: seq<Action>)
    ensures var s := Execute(workspaces, history, EMPTY, actions);
      && |s.live| <= JOB_LIMIT
      && (forall id :: id in s.tasks && id !in s.live ==> Retirable(s.tasks[id]))
      && (forall path :: path in s.busy ==> s.busy[path] in s.live)
  {
    RunKeeps(workspaces, history, actions);
    var s := Execute(workspaces, history, EMPTY, actions);
    forall path | path in s.busy ensures s.busy[path] in s.live {
      assert Staged(s.tasks[s.busy[path]]);
    }
  }

  /** A submission is refused exactly when the workspace is unknown or owned, the machine is owned,
      the table is full of jobs that cannot be retired, or the history or the executor fails. */
  lemma SubmissionRefused(workspaces: map<string, string>, s: State, r: Request, created: bool, accepted: bool)
    requires Inv(s)
    ensures Submitting(workspaces, s, r, created, accepted).1.None? <==>
              && r.name in workspaces && workspaces[r.name] !in s.busy
              && (r.machine.Some? ==> r.machine.value !in s.targets) && created && accepted
              && (|s.live| < JOB_LIMIT || exists i :: 0 <= i < |s.live| && Retirable(s.tasks[s.live[i]]))
    ensures Submitting(workspaces, s, r, created, accepted).1.Some? ==>
              var s' := Submitting(workspaces, s, r, created, accepted).0;
              s'.busy == s.busy && s'.targets == s.targets && s'.tasks == s.tasks
  {
    var i := FirstRetirable(s.live, s.tasks);
    assert i < |s.live| ==> Retirable(s.tasks[s.live[i]]);
  }

  predicate NothingPersists(tasks: Tasks) {
    forall id :: id in tasks ==> !tasks[id].persisted
  }

  /** Without a durable history nothing is ever retired, so once 128 jobs were accepted every
      further one is refused, however many have completed. */
  lemma NoHistoryNoRetirement(workspaces: map<string, string>, actions: seq<Action>, r: Request, created: bool,
                              accepted: bool)
    ensures var s := Execute(workspaces, false, EMPTY, actions);
      && |s.tasks| == |s.live| <= JOB_LIMIT
      && (|s.tasks| == JOB_LIMIT ==> Submitting(workspaces, s, r, created, accepted).1.Some?)
  {
    NoHistoryRun(workspaces, actions);
    RunKeeps(workspaces, false, actions);
    var s := Execute(workspaces, false, EMPTY, actions);
    SubmissionRefused(workspaces, s, r, created, accepted);
  }

  /** One job from submission to its end; `recorded` says whether its outcome could be recorded. */
  function Life(name: string, id: string, ended: Ended, recorded: bool): seq<Action> {
    [Submits(Request(name, None, false, id), true, true), Starts(id), Settles(id, ended, recorded), Releases(id),
     Finalizes(id), Publishes(id)]
  }

  function Numbered(n: nat): (id: string)
    ensures |id| == n
  {
    seq(n, _ => 'j')
  }

  /** One job after another in one workspace. */
  function Lives(name: string, n: nat): seq<Action> {
    if n == 0 then [] else Lives(name, n - 1) + Life(name, Numbered(n - 1), Completed, true)
  }

  lemma {:induction false} ExecuteAppend(workspaces: map<string, string>, history: bool, s: State, a: seq<Action>,
                                         b: seq<Action>)
    ensures Execute(workspaces, history, s, a + b)
         == Execute(workspaces, history, Execute(workspaces, history, s, a), b)
    decreases |b|
  {
    if b == [] {
      assert a + b == a;
    } else {
      assert (a + b)[..|a + b| - 1] == a + b[..|b| - 1];
      ExecuteAppend(workspaces, history, s, a, b[..|b| - 1]);
    }
  }

  lemma OneMore(workspaces: map<string, string>, history: bool, s: State, a: seq<Action>, n: nat)
    requires n < |a|
    ensures Execute(workspaces, history, s, a[..n + 1])
         == Next(workspaces, history, Execute(workspaces, history, s, a[..n]), a[n])
  {
    assert a[..n + 1][..n] == a[..n];
  }

  predicate AllDone(s: State) {
    s.busy == map[] && s.targets == map[]
    && forall id :: id in s.tasks ==> s.tasks[id].finalized && s.tasks[id].future == Done(Completed)
  }

  function Fresh(path: string): Task {
    Task(path, None, false, Queued, None, false, false, false, false, false, false)
  }

  /** What the future will hold: a job whose outcome could not be recorded fails. */
  function Outcome(ended: Ended, recorded: bool): Ended {
    if recorded then ended else Failed
  }

  function Recorded(path: string, outcome: Ended): Task {
    Fresh(path).(future := Running, outcome := Some(outcome), recorded := true)
  }

  function Over(path: string, outcome: Ended): Task {
    Recorded(path, outcome).(released := true, finalized := true, future := Done(outcome))
  }

  function Three(workspaces: map<string, string>, s: State, a: Action, b: Action, c: Action): State {
    Next(workspaces, false, Next(workspaces, false, Next(workspaces, false, s, a), b), c)
  }

  /** Submitted, begun, and its outcome recorded. */
  lemma LifeBegins(workspaces: map<string, string>, s: State, name: string, id: string, ended: Ended, recorded: bool)
    requires name in workspaces && s.busy == map[] && s.targets == map[] && |s.live| < JOB_LIMIT && id !in s.tasks
    ensures var a, path := Life(name, id, ended, recorded), workspaces[name];
      Three(workspaces, s, a[0], a[1], a[2])
      == State(map[path := id], map[], s.live + [id], s.tasks[id := Recorded(path, Outcome(ended, recorded))])
  {
    var a, path := Life(name, id, ended, recorded), workspaces[name];
    var s1 := Next(workspaces, false, s, a[0]);
    assert s1 == State(map[path := id], map[], s.live + [id], s.tasks[id := Fresh(path)]);
    var s2 := Next(workspaces, false, s1, a[1]);
    assert s2 == s1.(tasks := s.tasks[id := Fresh(path).(future := Running)]);
    var s3 := Next(workspaces, false, s2, a[2]);
    assert s3 == s1.(tasks := s.tasks[id := Recorded(path, Outcome(ended, recorded))]);
  }

  /** Released, finalized, and its future set. */
  lemma LifeEnds(workspaces: map<string, string>, live: seq<string>, tasks: Tasks, name: string, path: string,
                 id: string, ended: Ended, recorded: bool)
    ensures var a, outcome := Life(name, id, ended, recorded), Outcome(ended, recorded);
      Three(workspaces, State(map[path := id], map[], live, tasks[id := Recorded(path, outcome)]), a[3], a[4], a[5])
      == State(map[], map[], live, tasks[id := Over(path, outcome)])
  {
    var a, outcome := Life(name, id, ended, recorded), Outcome(ended, recorded);
    var s := State(map[path := id], map[], live, tasks[id := Recorded(path, outcome)]);
    var s1 := Next(workspaces, false, s, a[3]);
    var t1 := Recorded(path, outcome).(released := true);
    assert s1.busy == map[] && s1.targets == map[];
    assert s1 == State(map[], map[], live, tasks[id := t1]);
    var s2 := Next(workspaces, false, s1, a[4]);
    assert s2 == State(map[], map[], live, tasks[id := t1.(finalized := true)]);
    var s3 := Next(workspaces, false, s2, a[5]);
    assert s3 == State(map[], map[], live, tasks[id := Over(path, outcome)]);
  }

  lemma ExecuteThree(workspaces: map<string, string>, s: State, a: seq<Action>)
    requires |a| == 3
    ensures Execute(workspaces, false, s, a) == Three(workspaces, s, a[0], a[1], a[2])
  {
    assert a[..0] == [] && a[..3] == a;
    OneMore(workspaces, false, s, a, 0);
    OneMore(workspaces, false, s, a, 1);
    OneMore(workspaces, false, s, a, 2);
  }

  lemma ExecuteLife(workspaces: map<string, string>, s: State, a: seq<Action>)
    requires |a| == 6
    ensures Execute(workspaces, false, s, a)
         == Three(workspaces, Three(workspaces, s, a[0], a[1], a[2]), a[3], a[4], a[5])
  {
    assert a == a[..3] + a[3..];
    ExecuteAppend(workspaces, false, s, a[..3], a[3..]);
    ExecuteThree(workspaces, s, a[..3]);
    ExecuteThree(workspaces, Execute(workspaces, false, s, a[..3]), a[3..]);
  }

  /** A job that meets no obstacle leaves everything free again, and itself in the table. */
  lemma LifeRuns(workspaces: map<string, string>, s: State, name: string, id: string, ended: Ended, recorded: bool)
    requires name in workspaces && s.busy == map[] && s.targets == map[] && |s.live| < JOB_LIMIT && id !in s.tasks
    ensures Execute(workspaces, false, s, Life(name, id, ended, recorded))
         == State(map[], map[], s.live + [id], s.tasks[id := Over(workspaces[name], Outcome(ended, recorded))])
  {
    ExecuteLife(workspaces, s, Life(name, id, ended, recorded));
    LifeBegins(workspaces, s, name, id, ended, recorded);
    LifeEnds(workspaces, s.live + [id], s.tasks, name, workspaces[name], id, ended, recorded);
  }

  /** And then it polls as what became of it: completed, failed or cancelled, and failed if that could not
      be recorded. */
  lemma LifeTells(workspaces: map<string, string>, s: State, name: string, id: string, ended: Ended, recorded: bool)
    requires name in workspaces && s.busy == map[] && s.targets == map[] && |s.live| < JOB_LIMIT && id !in s.tasks
    ensures var s' := Execute(workspaces, false, s, Life(name, id, ended, recorded));
      && id in s'.tasks && id in s'.live
      && (StatusOf(s'.tasks[id]) == StatusCompleted <==> ended == Completed && recorded)
      && (StatusOf(s'.tasks[id]) == StatusFailed <==> ended == Failed || !recorded)
      && (StatusOf(s'.tasks[id]) == StatusCancelled <==> ended == CancelledInside && recorded)
  {
    LifeRuns(workspaces, s, name, id, ended, recorded);
    ListedStill(s.live, id);
  }

  lemma {:induction false} LivesRun(workspaces: map<string, string>, name: string, n: nat)
    requires name in workspaces && n <= JOB_LIMIT
    ensures var s := Execute(workspaces, false, EMPTY, Lives(name, n));
      AllDone(s) && |s.live| == n && forall id :: id in s.tasks ==> |id| < n
  {
    if n > 0 {
      LivesRun(workspaces, name, n - 1);
      ExecuteAppend(workspaces, false, EMPTY, Lives(name, n - 1), Life(name, Numbered(n - 1), Completed, true));
      LifeRuns(workspaces, Execute(workspaces, false, EMPTY, Lives(name, n - 1)), name, Numbered(n - 1), Completed,
               true);
    }
  }

  /** And that happens: after 128 jobs that all completed and own nothing, nothing more is accepted. */
  lemma LimitIsReached(workspaces: map<string, string>, name: string, r: Request, created: bool, accepted: bool)
    requires name in workspaces
    ensures var s := Execute(workspaces, false, EMPTY, Lives(name, JOB_LIMIT));
      && |s.tasks| == JOB_LIMIT && s.busy == map[] && s.targets == map[]
      && (forall id :: id in s.tasks ==> StatusOf(s.tasks[id]) == StatusCompleted)
      && Submitting(workspaces, s, r, created, accepted).1.Some?
  {
    LivesRun(workspaces, name, JOB_LIMIT);
    NoHistoryNoRetirement(workspaces, Lives(name, JOB_LIMIT), r, created, accepted);
  }

  lemma {:induction false} NoHistoryRun(workspaces: map<string, string>, actions: seq<Action>)
    ensures KeptAll(Execute(workspaces, false, EMPTY, actions))
    decreases |actions|
  {
    if actions != [] {
      NoHistoryRun(workspaces, actions[..|actions| - 1]);
      RunKeeps(workspaces, false, actions[..|actions| - 1]);
      NoHistoryStep(workspaces, Execute(workspaces, false, EMPTY, actions[..|actions| - 1]), actions[|actions| - 1]);
    }
  }

  /** Every accepted job is listed, and none of them persists. */
  predicate KeptAll(s: State) {
    NothingPersists(s.tasks) && (forall id :: id in s.tasks ==> id in s.live) && |s.tasks| == |s.live|
  }

  lemma NoHistoryStep(workspaces: map<string, string>, s: State, a: Action)
    requires Inv(s) && KeptAll(s)
    ensures KeptAll(Next(workspaces, false, s, a))
  {
    if a.Submits? {
      if a.request.id !in s.tasks {
        NoHistorySubmit(workspaces, s, a.request, a.created, a.accepted);
      }
    } else if a.id in s.tasks {
      NoHistoryMove(workspaces, s, a);
    }
  }

  lemma NoHistoryMove(workspaces: map<string, string>, s: State, a: Action)
    requires KeptAll(s) && !a.Submits? && a.id in s.tasks
    ensures KeptAll(Next(workspaces, false, s, a))
  {
    MovingPersists(s.live, s.tasks[a.id], a);
    KeptMove(s, a.id, s.tasks[a.id].(released := true));
    KeptMove(s, a.id, Moving(false, s.live, s.tasks[a.id], a));
  }

  lemma MovingPersists(live: seq<string>, t: Task, a: Action)
    requires !t.persisted
    ensures !Moving(false, live, t, a).persisted
  {
  }

  lemma KeptMove(s: State, id: string, t: Task)
    requires KeptAll(s) && id in s.tasks && !t.persisted
    ensures var tasks := s.tasks[id := t];
      NothingPersists(tasks) && (forall k :: k in tasks ==> k in s.live) && |tasks| == |s.live|
  {
    SameSize(s.tasks, id, t);
  }

  lemma NoneRetired(s: State)
    requires Inv(s) && NothingPersists(s.tasks)
    ensures Retired(s) == s.live
  {
    var i := FirstRetirable(s.live, s.tasks);
  }

  lemma KeptAdd(s: State, id: string, t: Task)
    requires KeptAll(s) && id !in s.tasks && !t.persisted
    ensures var tasks := s.tasks[id := t];
      NothingPersists(tasks) && (forall k :: k in tasks ==> k in s.live + [id]) && |tasks| == |s.live + [id]|
  {
    assert s.tasks[id := t].Keys == s.tasks.Keys + {id};
    assert |s.tasks[id := t]| == |s.tasks[id := t].Keys| && |s.tasks| == |s.tasks.Keys|;
    ListedStill(s.live, id);
  }

  lemma NoHistorySubmit(workspaces: map<string, string>, s: State, r: Request, created: bool, accepted: bool)
    requires Inv(s) && KeptAll(s) && r.id !in s.tasks
    ensures KeptAll(Submitting(workspaces, s, r, created, accepted).0)
  {
    NoneRetired(s);
    if Submitting(workspaces, s, r, created, accepted).1.None? {
      KeptAdd(s, r.id, Submitting(workspaces, s, r, created, accepted).0.tasks[r.id]);
    }
  }

  lemma ListedStill(live: seq<string>, id: string)
    ensures id in live + [id] && forall k :: k in live ==> k in live + [id]
  {
    assert (live + [id])[|live|] == id;
  }

  lemma SameSize(tasks: Tasks, id: string, t: Task)
    requires id in tasks
    ensures |tasks[id := t]| == |tasks|
  {
    assert tasks[id := t].Keys == tasks.Keys;
    assert |tasks| == |tasks.Keys| && |tasks[id := t]| == |tasks[id := t].Keys|;
  }

  // ----- What polling says -----

  /** The future holds the recorded outcome, and a cancelled job has no other. */
  predicate Truthful(t: Task) {
    && (t.future.Done? ==> t.outcome == Some(t.future.ended))
    && (t.future.Cancelled? || t.future.Queued? ==> t.outcome.None?)
  }

  predicate AllTruthful(tasks: Tasks) {
    forall id :: id in tasks ==> Truthful(tasks[id])
  }

  lemma TruthfulStep(history: bool, live: seq<string>, t: Task, a: Action)
    requires Truthful(t)
    ensures Truthful(Moving(history, live, t, a))
  {
  }

  lemma {:induction false} RunTruthful(workspaces: map<string, string>, history: bool, actions: seq<Action>)
    ensures AllTruthful(Execute(workspaces, history, EMPTY, actions).tasks)
    decreases |actions|
  {
    if actions != [] {
      RunTruthful(workspaces, history, actions[..|actions| - 1]);
      StepTruthful(workspaces, history, Execute(workspaces, history, EMPTY, actions[..|actions| - 1]),
                   actions[|actions| - 1]);
    }
  }

  lemma StepTruthful(workspaces: map<string, string>, history: bool, s: State, a: Action)
    requires AllTruthful(s.tasks)
    ensures AllTruthful(Next(workspaces, history, s, a).tasks)
  {
    if !a.Submits? && a.id in s.tasks {
      TruthfulStep(history, s.live, s.tasks[a.id], a);
    }
  }

  /** Terminal with the outcome that was recorded, cancelled or failed for a cancelled job by its record,
      and otherwise not terminal. */
  predicate StatusTold(t: Task, status: Status) {
    && (status == StatusCompleted <==> t.future.Done? && t.outcome == Some(Completed))
    && (status == StatusFailed <==>
          (t.future.Done? && t.outcome == Some(Failed)) || (t.future.Cancelled? && t.finalized && t.historyError))
    && (status == StatusCancelled <==>
          || (t.future.Done? && t.outcome == Some(CancelledInside))
          || (t.future.Cancelled? && t.finalized && !t.historyError))
    && (status == StatusCancelling <==>
          (t.future.Cancelled? && !t.finalized) || ((t.future.Queued? || t.future.Running?) && t.asked))
    && (status == StatusQueued <==> t.future.Queued? && !t.asked)
    && (status == StatusRunning <==> t.future.Running? && !t.asked)
  }

  lemma StatusTells(t: Task)
    requires Truthful(t)
    ensures StatusTold(t, StatusOf(t))
  {
  }

  /** In every run a poll tells the truth. */
  lemma PollsTruly(workspaces: map<string, string>, history: bool, actions: seq<Action>, id: string)
    ensures var s := Execute(workspaces, history, EMPTY, actions);
      id in s.tasks ==> StatusTold(s.tasks[id], StatusOf(s.tasks[id]))
  {
    RunTruthful(workspaces, history, actions);
    var s := Execute(workspaces, history, EMPTY, actions);
    if id in s.tasks {
      StatusTells(s.tasks[id]);
    }
  }
}
