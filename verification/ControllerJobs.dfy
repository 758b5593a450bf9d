/** Job ownership in the controller: submission, release, polling, cancellation and retirement
    (tools/forge_controller.py:566-723).

    Each step below is one critical section, or one step of a worker or callback between them.
 */
module ControllerJobs {
  import opened Wrappers

  const JOB_LIMIT := 128

  datatype Ended = Completed | Failed | CancelledInside

  datatype Future = Queued | Running | Done(ended: Ended) | Cancelled

  /** One submitted job: its executor future, and how far its worker or callback has come. */
  datatype Task = Task(path: string, machine: Option<string>, cancellable: bool, future: Future, outcome: Option<Ended>,
                       recorded: bool, persisted: bool, released: bool, finalized: bool, asked: bool,
                       historyError: bool)

  /** `tasks` are all jobs ever accepted; `live` are the table's entries, oldest first. */
  datatype State = State(busy: map<string, string>, targets: map<string, string>, live: seq<string>,
                         tasks: map<string, Task>)

  const EMPTY := State(map[], map[], [], map[])

  datatype Error = UnknownWorkspace | WorkspaceOwned | TargetOwned | JobLimit | HistoryFailed | NotSubmitted

  predicate Retirable(t: Task) {
    (t.future.Done? || t.future.Cancelled?) && t.finalized && t.persisted
  }

  /** The oldest entry that may be retired. */
  function FirstRetirable(live: seq<string>, tasks: map<string, Task>): (i: nat)
    ensures i <= |live|
    ensures i < |live| ==> live[i] in tasks && Retirable(tasks[live[i]])
    ensures forall k :: 0 <= k < i ==> live[k] in tasks ==> !Retirable(tasks[live[k]])
    decreases |live|
  {
    if live == [] || (live[0] in tasks && Retirable(tasks[live[0]])) then 0 else FirstRetirable(live[1..], tasks) + 1
  }

  function Without(live: seq<string>, i: nat): seq<string>
    requires i <= |live|
  {
    if i == |live| then live else live[..i] + live[i + 1..]
  }

  /** Room is made, when there is none, by retiring one safely persisted terminal job. */
  function Retired(s: State): seq<string> {
    if |s.live| >= JOB_LIMIT then Without(s.live, FirstRetirable(s.live, s.tasks)) else s.live
  }

  datatype Request = Request(name: string, machine: Option<string>, cancellable: bool, id: string)

  /** `created` and `accepted` say whether the history entry and the executor took the job. */
  function Submitting(workspaces: map<string, string>, s: State, r: Request, created: bool, accepted: bool)
    : (State, Option<Error>)
  {
    if r.name !in workspaces then (s, Some(UnknownWorkspace))
    else if workspaces[r.name] in s.busy then (s, Some(WorkspaceOwned))
    else if r.machine.Some? && r.machine.value in s.targets then (s, Some(TargetOwned))
    else if |Retired(s)| >= JOB_LIMIT then (s.(live := Retired(s)), Some(JobLimit))
    else if !created then (s.(live := Retired(s)), Some(HistoryFailed))
    else if !accepted then (s.(live := Retired(s)), Some(NotSubmitted))
    else
      var task := Task(workspaces[r.name], r.machine, r.cancellable, Queued, None, false, false, false, false, false,
                       false);
      (State(s.busy[workspaces[r.name] := r.id],
             if r.machine.Some? then s.targets[r.machine.value := r.id] else s.targets,
             Retired(s) + [r.id], s.tasks[r.id := task]), None)
  }

  /** The entries of a map that another owner holds. */
  function Disown(owners: map<string, string>, id: string): map<string, string> {
    map key | key in owners && owners[key] != id :: owners[key]
  }

  /** Cleanup: frees what this job owns and nothing else. */
  function Finished(s: State, path: string, id: string): State {
    s.(busy := if path in s.busy && s.busy[path] == id then s.busy - {path} else s.busy,
       targets := Disown(s.targets, id))
  }

  datatype Status = StatusQueued | StatusRunning | StatusCancelling | StatusCancelled | StatusCompleted | StatusFailed {
    predicate Terminal() {
      StatusCancelled? || StatusCompleted? || StatusFailed?
    }
  }

  /** What polling a live job says. */
  function StatusOf(t: Task): Status {
    match t.future
    case Cancelled =>
      if !t.finalized then StatusCancelling else if t.historyError then StatusFailed else StatusCancelled
    case Queued => if t.asked then StatusCancelling else StatusQueued
    case Running => if t.asked then StatusCancelling else StatusRunning
    case Done(ended) =>
      match ended
      case Completed => StatusCompleted
      case Failed => StatusFailed
      case CancelledInside => StatusCancelled
  }

  function Cancelling(t: Task): Task {
    match t.future
    case Queued => t.(future := Cancelled)
    case Running => if t.cancellable then t.(asked := true) else t
    case _ => t
  }

  // ----- The table as an object -----

  class JobTable {
    const workspaces: map<string, string>
    var busy: map<string, string>
    var targets: map<string, string>
    var live: seq<string>
    var tasks: map<string, Task>

    constructor (workspaces: map<string, string>)
      ensures this.workspaces == workspaces && Value() == EMPTY
    {
      this.workspaces, busy, targets, live, tasks := workspaces, map[], map[], [], map[];
    }

    function Value(): State
      reads this
    {
      State(busy, targets, live, tasks)
    }

    /** Retire one old job if the table is full. */
    method MakeRoom()
      modifies this`live
      ensures live == Retired(old(Value()))
    {
      if |live| >= JOB_LIMIT {
        var i := 0;
        while i < |live| && !(live[i] in tasks && Retirable(tasks[live[i]]))
          invariant i <= |live| && FirstRetirable(live, tasks) == i + FirstRetirable(live[i..], tasks)
        {
          assert live[i..][1..] == live[i + 1..];
          i := i + 1;
        }
        assert i == |live| ==> live[i..] == [];
        if i < |live| {
          live := live[..i] + live[i + 1..];
        }
      }
    }

    method Submit(r: Request, created: bool, accepted: bool) returns (error: Option<Error>)
      modifies this
      ensures var next := Submitting(workspaces, old(Value()), r, created, accepted);
        Value() == next.0 && error == next.1
    {
      if r.name !in workspaces {
        return Some(UnknownWorkspace);
      }
      var path := workspaces[r.name];
      if path in busy {
        return Some(WorkspaceOwned);
      }
      if r.machine.Some? && r.machine.value in targets {
        return Some(TargetOwned);
      }
      MakeRoom();
      if |live| >= JOB_LIMIT {
        return Some(JobLimit);
      }
      if !created {
        return Some(HistoryFailed);
      }
      ghost var busy0, targets0 := busy, targets;
      busy := busy[path := r.id];
      if r.machine.Some? {
        targets := targets[r.machine.value := r.id];
      }
      if !accepted {
        busy := busy - {path};
        if r.machine.Some? && r.machine.value in targets && targets[r.machine.value] == r.id {
          targets := targets - {r.machine.value};
        }
        assert busy == busy0 && targets == targets0;
        return Some(NotSubmitted);
      }
      live := live + [r.id];
      tasks := tasks[r.id := Task(path, r.machine, r.cancellable, Queued, None, false, false, false, false, false,
                                  false)];
      return None;
    }

    method Finish(path: string, id: string)
      modifies this`busy, this`targets
      ensures Value() == Finished(old(Value()), path, id)
    {
      if path in busy && busy[path] == id {
        busy := busy - {path};
      }
      targets := map key | key in targets && targets[key] != id :: targets[key];
    }

    method Poll(id: string) returns (status: Option<Status>)
      ensures status == if id in live && id in tasks then Some(StatusOf(tasks[id])) else None
    {
      if id !in live || id !in tasks {
        return None;
      }
      return Some(StatusOf(tasks[id]));
    }

    method Cancel(id: string)
      modifies this`tasks
      ensures tasks == if id in live && id in old(tasks) then old(tasks)[id := Cancelling(old(tasks)[id])]
              else old(tasks)
      ensures forall other :: other in old(tasks) && other != id ==> other in tasks && tasks[other] == old(tasks)[other]
      ensures id in live && id in old(tasks) ==>
                && id in tasks
                && (tasks[id].future == if old(tasks)[id].future.Queued? then Cancelled else old(tasks)[id].future)
                && (tasks[id].asked <==>
                      old(tasks)[id].asked || (old(tasks)[id].future.Running? && old(tasks)[id].cancellable))
    {
      if id in live && id in tasks {
        tasks := tasks[id := Cancelling(tasks[id])];
      }
    }
  }

  // ----- Interleavings -----

  datatype Action =
    | Submits(request: Request, created: bool, accepted: bool)
    | Starts(id: string)
    | Settles(id: string, ended: Ended, recorded: bool)   // the worker's record of its outcome
    | Releases(id: string)                                // cleanup, by worker or callback
    | Finalizes(id: string)
    | Publishes(id: string)                               // the executor sets the future
    | Cancels(id: string)
    | CallsBack(id: string, recorded: bool)               // a cancelled job's callback records it
    | CleansAgain(id: string)                             // delayed or duplicate cleanup

  /** Whether a durable record makes the outcome persistent: only with a history. */
  function Settling(history: bool, t: Task, ended: Ended, recorded: bool): Task {
    if !t.future.Running? || t.outcome.Some? then t
    else t.(outcome := Some(if recorded then ended else Failed), persisted := history && recorded, recorded := true)
  }

  function CallingBack(history: bool, t: Task, recorded: bool): Task {
    if !t.future.Cancelled? || t.recorded then t
    else t.(recorded := true, persisted := history && recorded, historyError := !recorded)
  }

  predicate MayRelease(t: Task) {
    !t.released && ((t.future.Running? && t.outcome.Some?) || (t.future.Cancelled? && t.recorded))
  }

  function Publishing(t: Task): Task {
    if t.future.Running? && t.finalized && t.outcome.Some? then t.(future := Done(t.outcome.value)) else t
  }

  /** A step that changes one job only. */
  function Moving(history: bool, live: seq<string>, t: Task, a: Action): Task {
    match a
    case Starts(_) => if t.future.Queued? then t.(future := Running) else t
    case Settles(_, ended, recorded) => Settling(history, t, ended, recorded)
    case Finalizes(_) => if t.released then t.(finalized := true) else t
    case Publishes(_) => Publishing(t)
    case Cancels(id) => if id in live then Cancelling(t) else t
    case CallsBack(_, recorded) => CallingBack(history, t, recorded)
    case _ => t
  }

  function Next(workspaces: map<string, string>, history: bool, s: State, a: Action): State {
    if a.Submits? then
      if a.request.id in s.tasks then s else Submitting(workspaces, s, a.request, a.created, a.accepted).0
    else if a.id !in s.tasks then s
    else
      var t := s.tasks[a.id];
      if a.Releases? then
        if MayRelease(t) then Finished(s.(tasks := s.tasks[a.id := t.(released := true)]), t.path, a.id) else s
      else if a.CleansAgain? then
        if t.released then Finished(s, t.path, a.id) else s
      else s.(tasks := s.tasks[a.id := Moving(history, s.live, t, a)])
  }

  function Execute(workspaces: map<string, string>, history: bool, s: State, actions: seq<Action>): State
    decreases |actions|
  {
    if actions == [] then s
    else Next(workspaces, history, Execute(workspaces, history, s, actions[..|actions| - 1]), actions[|actions| - 1])
  }
}
