/**
 The orchestrator with its fields updated in place. Each method is what one of
 the source's functions does in one stretch.
 */
module OrchestratorState {
  import opened Company
  import opened TaskGraph
  import opened TaskModel
  import TaskOperations
  import opened O = Orchestrator
  import opened Wrappers

  class CompanyOrchestrator {
    const tasks: TaskOperations.TaskService
    const reviewerId: EmployeeId
    var dispatchEpoch: nat
    var acceptingActions: bool
    var processes: map<nat, Stack>
    var nextProcess: nat
    var inFlight: map<TaskId, nat>
    ghost var issued: seq<Issued>

    ghost function TheRoles(): Roles {
      Roles(tasks.settings, reviewerId, TaskServiceOf(tasks.settings))
    }

    ghost function State(): World
      reads this, tasks.store
    {
      World(tasks.store.State(), dispatchEpoch, acceptingActions, processes, nextProcess, inFlight, issued)
    }

    constructor (tasks: TaskOperations.TaskService, reviewerId: EmployeeId)
      requires tasks.store.State() == TaskRuns.EMPTY
      ensures State() == INITIAL && this.tasks == tasks && this.reviewerId == reviewerId
    {
      this.tasks, this.reviewerId := tasks, reviewerId;
      dispatchEpoch, acceptingActions, processes, nextProcess, inFlight, issued := 0, false, map[], 0, map[], [];
    }

    method RecordEvent(ghost r: Roles, origin: Origin, id: EventId, actorId: EmployeeId, taskId: TaskId, kind: string)
      requires r == TheRoles()
      modifies this`issued, tasks.store
      ensures State() == Issue(r, old(State()), origin, TaskRuns.Note(id, actorId, Some(taskId), kind))
    {
      var ok := tasks.store.InsertEvent(Event(id, actorId, Some(taskId), Noted(kind)));
      issued := issued + [Issued(origin, dispatchEpoch, TaskRuns.Note(id, actorId, Some(taskId), kind))];
    }

    method Transition(ghost r: Roles, origin: Origin, taskId: TaskId, next: TaskStatus, actorId: EmployeeId,
                      id: EventId) returns (ok: bool)
      requires r == TheRoles()
      modifies this`issued, tasks.store
      ensures ok == r.service.succeeds(old(tasks.store.State()), TaskRuns.Transition(taskId, next, actorId, id))
      ensures State() == if ok then Issue(r, old(State()), origin, TaskRuns.Transition(taskId, next, actorId, id))
                else old(State())
    {
      var outcome := tasks.Transition(taskId, next, actorId, id);
      ok := outcome.Written?;
      if ok {
        issued := issued + [Issued(origin, dispatchEpoch, TaskRuns.Transition(taskId, next, actorId, id))];
      }
    }

    method Retry(ghost r: Roles, origin: Origin, taskId: TaskId, id: EventId) returns (ok: bool)
      requires r == TheRoles()
      modifies this`issued, tasks.store
      ensures ok == r.service.succeeds(old(tasks.store.State()), TaskRuns.Retry(taskId, r.settings.leaderId, id))
      ensures State() == if ok then Issue(r, old(State()), origin, TaskRuns.Retry(taskId, r.settings.leaderId, id))
                else old(State())
    {
      var outcome := tasks.Retry(taskId, tasks.settings.leaderId, id);
      ok := outcome.Written?;
      if ok {
        issued := issued + [Issued(origin, dispatchEpoch, TaskRuns.Retry(taskId, tasks.settings.leaderId, id))];
      }
    }

    method HasRunningCapacity() returns (capacity: bool)
      ensures capacity == HasCapacity(TheRoles(), tasks.store.State())
    {
      var stored := tasks.store.tasks;
      var rest, count := stored.Keys, 0;
      while rest != {}
        invariant rest <= stored.Keys
        invariant count == |set id | id in stored && id !in rest && stored[id].status == Running|
        decreases |rest|
      {
        ghost var counted := set id | id in stored && id !in rest && stored[id].status == Running;
        var id :| id in rest;
        rest := rest - {id};
        if stored[id].status == Running {
          count := count + 1;
          assert (set id | id in stored && id !in rest && stored[id].status == Running) == counted + {id};
        } else {
          assert (set id | id in stored && id !in rest && stored[id].status == Running) == counted;
        }
      }
      assert (set id | id in stored && id !in rest && stored[id].status == Running) ==
          RunningTasks(tasks.store.State());
      capacity := count < tasks.settings.company.limits.maxParallelTasks;
    }

    method StartInFlight(taskId: TaskId)
      modifies this`processes, this`nextProcess, this`inFlight
      ensures State() == O.StartInFlight(TheRoles(), old(State()), taskId)
    {
      var root := Frame(InFlight, taskId, dispatchEpoch, "", false, Calling);
      var found := tasks.Get(taskId);
      if found.Some? && found.value.owner.Some?
          && IsEmployee(tasks.settings.company.employees, found.value.owner.value) {
        processes := processes[nextProcess :=
            On(SendFrame(taskId, dispatchEpoch, found.value.owner.value), On(root, NoFrame))];
      } else {
        processes := processes[nextProcess := On(root.(phase := Returned(true)), NoFrame)];
      }
      inFlight := inFlight[taskId := nextProcess];
      nextProcess := nextProcess + 1;
    }

    method StartReadyTask(ghost r: Roles, origin: Origin, taskId: TaskId, actorId: EmployeeId, e: Environment)
      returns (failed: bool)
      requires r == TheRoles()
      modifies this, tasks.store
      ensures (State(), failed) == O.StartReadyTask(r, old(State()), origin, taskId, actorId, e)
    {
      var capacity := HasRunningCapacity();
      if !capacity {
        RecordEvent(r, origin, e.ids(1), tasks.settings.leaderId, taskId, "user.approval.requested");
        return false;
      }
      var started := Transition(r, origin, taskId, Running, actorId, e.ids(1));
      if !started {
        return true;
      }
      StartInFlight(taskId);
      return false;
    }

    method Complete(pid: nat, failed: bool)
      requires HasTop(State(), pid)
      modifies this`processes
      ensures State() == O.Complete(old(State()), pid, failed)
    {
      match processes[pid].below
      case NoFrame => processes := processes - {pid};
      case On(caller, below) => processes := processes[pid := On(caller.(phase := Returned(failed)), below)];
    }

    /** The end of `sendTask`'s loop body, up to the await of the replacement. */
    method RetryTask(ghost r: Roles, pid: nat, f: Frame, e: Environment)
      requires HasTop(State(), pid) && r == TheRoles()
      modifies this, tasks.store
      ensures State() == O.RetryTask(r, old(State()), pid, f, e)
    {
      var origin := FromSend(f.epoch);
      var retried := Retry(r, origin, f.taskId, e.ids(4));
      if !retried {
        Complete(pid, true);
        return;
      }
      var current := tasks.Get(f.taskId);
      var capacity := HasRunningCapacity();
      if (current.Some? && current.value.status == Blocked) || !capacity {
        RecordEvent(r, origin, e.ids(5), tasks.settings.leaderId, f.taskId, "user.approval.requested");
        Complete(pid, false);
      } else if !e.hasSession {
        Complete(pid, true);
      } else {
        processes := processes[pid := On(processes[pid].top.(phase := Resuming), processes[pid].below)];
      }
    }

    method SendTail(ghost r: Roles, pid: nat, failed: bool, e: Environment)
      requires HasTop(State(), pid) && r == TheRoles()
      modifies this, tasks.store
      ensures State() == O.SendTail(r, old(State()), pid, failed, e)
    {
      var f := processes[pid].top;
      var current := tasks.Get(f.taskId);
      if f.epoch != dispatchEpoch {
        Complete(pid, false);
        return;
      }
      if current == None {
        Complete(pid, true);
        return;
      }
      if current.value.status != Running {
        Complete(pid, false);
        return;
      }
      if !failed {
        RecordEvent(r, FromSend(f.epoch), e.ids(2), f.employee, f.taskId, "task.execution_error");
      }
      var marked := Transition(r, FromSend(f.epoch), f.taskId, Failed, f.employee, e.ids(3));
      if !marked {
        Complete(pid, true);
        return;
      }
      RetryTask(r, pid, f, e);
    }

    /** After an awaited replacement: the capacity is checked again. */
    method RestartTask(ghost r: Roles, pid: nat, e: Environment)
      requires HasTop(State(), pid) && r == TheRoles()
      modifies this, tasks.store
      ensures State() == O.RestartTask(r, old(State()), pid, e)
    {
      var f := processes[pid].top;
      if f.epoch != dispatchEpoch {
        Complete(pid, false);
        return;
      }
      var capacity := HasRunningCapacity();
      if !capacity {
        RecordEvent(r, FromSend(f.epoch), e.ids(0), tasks.settings.leaderId, f.taskId, "user.approval.requested");
        Complete(pid, false);
        return;
      }
      var started := Transition(r, FromSend(f.epoch), f.taskId, Running, f.employee, e.ids(0));
      if !started {
        Complete(pid, true);
        return;
      }
      var task := tasks.Get(f.taskId);
      if task.Some? && task.value.owner.Some? && IsEmployee(tasks.settings.company.employees, task.value.owner.value) {
        processes := processes[pid := On(SendFrame(f.taskId, f.epoch, task.value.owner.value), processes[pid].below)];
      } else {
        Complete(pid, true);
      }
    }

    method StopDispatching()
      modifies this`acceptingActions, this`dispatchEpoch
      ensures State() == O.StopDispatching(old(State()))
    {
      acceptingActions := false;
      dispatchEpoch := dispatchEpoch + 1;
    }

    method ResumeDispatching()
      modifies this`acceptingActions
      ensures State() == O.ResumeDispatching(old(State()))
    {
      acceptingActions := true;
    }

    method RecoverRunning(ids: seq<TaskId>)
      modifies this`processes, this`nextProcess, this`inFlight
      ensures State() == O.RecoverRunning(TheRoles(), old(State()), ids)
    {
      var i := 0;
      while i < |ids|
        invariant 0 <= i <= |ids|
        invariant O.RecoverRunning(TheRoles(), State(), ids[i..]) == O.RecoverRunning(TheRoles(), old(State()), ids)
      {
        assert ids[i..][1..] == ids[i + 1..];
        if ids[i] !in inFlight {
          StartInFlight(ids[i]);
        }
        i := i + 1;
      }
    }

    method RecoverReviews(ids: seq<TaskId>)
      modifies this`processes, this`nextProcess, this`inFlight
      ensures State() == O.RecoverReviews(old(State()), ids)
    {
      var i := 0;
      while i < |ids|
        invariant 0 <= i <= |ids|
        invariant O.RecoverReviews(State(), ids[i..]) == O.RecoverReviews(old(State()), ids)
      {
        assert ids[i..][1..] == ids[i + 1..];
        if ids[i] !in inFlight {
          processes := processes[nextProcess :=
              On(Frame(Recovery, ids[i], dispatchEpoch, "", false, Waiting), NoFrame)];
          inFlight := inFlight[ids[i] := nextProcess];
          nextProcess := nextProcess + 1;
        }
        i := i + 1;
      }
    }

    method RecoverWork(listed: seq<TaskId>)
      modifies this`processes, this`nextProcess, this`inFlight
      ensures State() == O.RecoverWork(TheRoles(), old(State()), listed)
    {
      var max := tasks.settings.company.limits.maxParallelTasks;
      var running := WithStatus(tasks.store.State(), listed, Running);
      RecoverRunning(if |running| <= max then running else running[..max]);
      RecoverReviews(WithStatus(tasks.store.State(), listed, Review));
    }
  }
}
