/**
 What a driver does with its task when the session ends while the task runs.
 */
module Retries {
  import opened Company
  import opened TaskGraph
  import opened TaskHistory
  import opened TaskModel
  import opened TaskRuns
  import opened Orchestrator
  import opened Drivers
  import opened Wrappers

  lemma NoteKeepsTasks(s: Settings, t: Tables, c: Command)
    requires c.Note?
    ensures Perform(s, t, c).tasks == t.tasks && LogIds(Perform(s, t, c)) <= LogIds(t) + {c.eventId}
  {
    var event := Event(c.eventId, c.actorId, c.about, Noted(c.kind));
    assert forall i :: 0 <= i < |t.log + [event]| ==> (t.log + [event])[i] == if i < |t.log| then t.log[i] else event;
  }

  ghost predicate CanWrite(t: Tables, id: TaskId, eventId: EventId) {
    IdsMatch(t) && StoredCanBePut(t) && id in t.tasks && eventId !in LogIds(t)
  }

  lemma RunningTaskFails(s: Settings, t: Tables, id: TaskId, actor: EmployeeId, eventId: EventId)
    requires CanWrite(t, id, eventId) && t.tasks[id].status == Running && IsEmployee(s.company.employees, actor)
    ensures Settle(t, Decide(s, t, Failing(id, actor, eventId))).0.Written?
    ensures Perform(s, t, Failing(id, actor, eventId)).tasks ==
            t.tasks[id := t.tasks[id].(status := Failed, updatedEventId := eventId)]
  {
    assert forall i :: 0 <= i < |t.log| ==> t.log[i].id in LogIds(t);
  }

  /** Whether the task may be tried once more. */
  predicate MayRetry(s: Settings, record: TaskRecord) {
    record.retryCount < s.company.limits.maxTaskRetry
  }

  lemma FailedTaskIsRetried(s: Settings, t: Tables, id: TaskId, actor: EmployeeId, eventId: EventId)
    requires CanWrite(t, id, eventId) && t.tasks[id].status == Failed
    ensures Settle(t, Decide(s, t, Retry(id, actor, eventId))).0.Written?
    ensures var again := MayRetry(s, t.tasks[id]);
            Perform(s, t, Retry(id, actor, eventId)).tasks ==
              t.tasks[id := t.tasks[id].(
                  status := if again then Ready else Blocked,
                  retryCount := t.tasks[id].retryCount + (if again then 1 else 0), updatedEventId := eventId)]
  {
    assert forall i :: 0 <= i < |t.log| ==> t.log[i].id in LogIds(t);
  }

  /** A task that stops running leaves room for one. */
  lemma StoppedTaskLeavesRoom(r: Roles, t: Tables, t': Tables, id: TaskId, record: TaskRecord)
    requires id in RunningTasks(t) && |RunningTasks(t)| <= r.settings.company.limits.maxParallelTasks
    requires t'.tasks == t.tasks[id := record] && record.status != Running
    ensures HasCapacity(r, t')
  {
    assert RunningTasks(t') == RunningTasks(t) - {id};
  }

  /** The task is given back within its retries, or blocked; no other task changes. */
  ghost predicate IsGivenBack(s: Settings, t: Tables, id: TaskId, t': Tables)
    requires id in t.tasks
  {
    && t'.tasks.Keys == t.tasks.Keys
    && (forall other :: other in t.tasks && other != id ==> t'.tasks[other] == t.tasks[other])
    && t'.tasks[id].status == (if MayRetry(s, t.tasks[id]) then Ready else Blocked)
    && t'.tasks[id].retryCount == t.tasks[id].retryCount + (if MayRetry(s, t.tasks[id]) then 1 else 0)
  }

  function AskForHelp(r: Roles, id: TaskId, e: Environment): Command {
    Note(e.ids(5), r.settings.leaderId, Some(id), "user.approval.requested")
  }

  /** The driver waits for a new session if a retry is left and its owner has one to
      replace; else it is done, and without a retry left the user was asked. */
  ghost predicate DriverGoesOn(r: Roles, w: World, pid: nat, e: Environment, w': World)
    requires HasTop(w, pid) && Top(w, pid).taskId in w.tables.tasks
  {
    var f := Top(w, pid);
    var again := MayRetry(r.settings, w.tables.tasks[f.taskId]);
    if again && e.hasSession then
      w'.processes == SetPhase(w, pid, Resuming).processes
    else
      && w'.processes == Complete(w, pid, again).processes
      && (!again ==> EndsWith(w'.issued, AskForHelp(r, f.taskId, e)))
  }

  predicate EndsWith(issued: seq<Issued>, c: Command) {
    issued != [] && issued[|issued| - 1].command == c
  }

  ghost predicate GoesOn(r: Roles, w: World, pid: nat, e: Environment, w': World)
    requires HasTop(w, pid) && Top(w, pid).taskId in w.tables.tasks
  {
    IsGivenBack(r.settings, w.tables, Top(w, pid).taskId, w'.tables) && DriverGoesOn(r, w, pid, e, w')
  }

  /** What the records are once the task has failed and was retried. */
  predicate IsRetried(s: Settings, t: Tables, id: TaskId, eventId: EventId, t': Tables)
    requires id in t.tasks
  {
    var before := t.tasks[id];
    t'.tasks == t.tasks[id := before.(
        status := if MayRetry(s, before) then Ready else Blocked,
        retryCount := before.retryCount + (if MayRetry(s, before) then 1 else 0), updatedEventId := eventId)]
  }

  /** A service that retries the task, and then notes that the user was asked. */
  predicate RetriesAndNotes(r: Roles, w: World, pid: nat, e: Environment, failed: World, retried: World)
    requires HasTop(w, pid) && Top(w, pid).taskId in w.tables.tasks
  {
    var f := Top(w, pid);
    var retry := Retry(f.taskId, r.settings.leaderId, e.ids(4));
    && failed == w.(tables := failed.tables, issued := failed.issued)
    && r.service.succeeds(failed.tables, retry) && retried == Issue(r, failed, FromSend(f.epoch), retry)
    && IsRetried(r.settings, w.tables, f.taskId, e.ids(4), retried.tables)
    && r.service.perform(retried.tables, AskForHelp(r, f.taskId, e)).tasks == retried.tables.tasks
    && HasCapacity(r, retried.tables)
  }

  lemma RetriedTaskIsGivenBack(r: Roles, w: World, pid: nat, e: Environment, failed: World, retried: World)
    requires HasTop(w, pid) && Top(w, pid).taskId in w.tables.tasks
    requires RetriesAndNotes(r, w, pid, e, failed, retried)
    ensures RetryTask(r, failed, pid, Top(w, pid), e).tables.tasks == retried.tables.tasks
    ensures IsGivenBack(r.settings, w.tables, Top(w, pid).taskId, retried.tables)
  {
  }

  lemma RetriedDriverGoesOn(r: Roles, w: World, pid: nat, e: Environment, failed: World, retried: World)
    requires HasTop(w, pid) && Top(w, pid).taskId in w.tables.tasks
    requires RetriesAndNotes(r, w, pid, e, failed, retried)
    ensures DriverGoesOn(r, w, pid, e, RetryTask(r, failed, pid, Top(w, pid), e))
  {
  }

  lemma FailedDriverGoesOn(r: Roles, w: World, pid: nat, e: Environment, failed: World)
    requires r.service == TaskServiceOf(r.settings) && HasTop(w, pid)
    requires failed == w.(tables := failed.tables, issued := failed.issued)
    requires var f := Top(w, pid);
             && f.taskId in RunningTasks(w.tables)
             && |RunningTasks(w.tables)| <= r.settings.company.limits.maxParallelTasks
             && CanWrite(failed.tables, f.taskId, e.ids(4))
             && failed.tables.tasks ==
                  w.tables.tasks[f.taskId := w.tables.tasks[f.taskId].(status := Failed, updatedEventId := e.ids(3))]
    ensures GoesOn(r, w, pid, e, RetryTask(r, failed, pid, Top(w, pid), e))
  {
    var f := Top(w, pid);
    var retry := Retry(f.taskId, r.settings.leaderId, e.ids(4));
    var retried := Issue(r, failed, FromSend(f.epoch), retry);
    FailedTaskIsRetried(r.settings, failed.tables, f.taskId, r.settings.leaderId, e.ids(4));
    assert IsRetried(r.settings, w.tables, f.taskId, e.ids(4), retried.tables);
    StoppedTaskLeavesRoom(r, w.tables, retried.tables, f.taskId, retried.tables.tasks[f.taskId]);
    NoteKeepsTasks(r.settings, retried.tables, AskForHelp(r, f.taskId, e));
    RetriedTaskIsGivenBack(r, w, pid, e, failed, retried);
    RetriedDriverGoesOn(r, w, pid, e, failed, retried);
  }

  lemma FailingDriverGoesOn(r: Roles, w: World, pid: nat, e: Environment, noted: World)
    requires r.service == TaskServiceOf(r.settings) && HasTop(w, pid)
    requires noted == w.(tables := noted.tables, issued := noted.issued)
    requires var f := Top(w, pid);
             && f.taskId in RunningTasks(w.tables) && IsEmployee(r.settings.company.employees, f.employee)
             && |RunningTasks(w.tables)| <= r.settings.company.limits.maxParallelTasks
             && CanWrite(noted.tables, f.taskId, e.ids(3)) && e.ids(4) !in LogIds(noted.tables)
             && noted.tables.tasks == w.tables.tasks
    requires e.ids(3) != e.ids(4)
    ensures GoesOn(r, w, pid, e, FailTask(r, noted, pid, Top(w, pid), e))
  {
    var f := Top(w, pid);
    var fail := Failing(f.taskId, f.employee, e.ids(3));
    var failed := Issue(r, noted, FromSend(f.epoch), fail);
    RunningTaskFails(r.settings, noted.tables, f.taskId, f.employee, e.ids(3));
    WrittenIds(r.settings, noted.tables, fail);
    StoredStaysPuttable(r.settings, noted.tables, fail);
    FailedDriverGoesOn(r, w, pid, e, failed);
  }

  /** The stream of a driver ends, by itself or over a fault. */
  predicate EndsItsStream(f: Frame, input: Input) {
    || (f.phase == Streaming && (input.StreamEnd? || input.StreamError?))
    || (f.phase.Ended? && input.Continue?)
  }

  /** A current driver of a running task, in a world that keeps its promises. */
  ghost predicate DrivesSoundly(r: Roles, w: World, pid: nat, e: Environment) {
    && HasTop(w, pid) && Top(w, pid).kind == Sending && Top(w, pid).epoch == w.epoch
    && Top(w, pid).taskId in RunningTasks(w.tables) && IsEmployee(r.settings.company.employees, Top(w, pid).employee)
    && TasksAreFine(r, w.tables) && StoredCanBePut(w.tables) && IsFresh(w.tables, e)
  }

  lemma TailGoesOn(r: Roles, w: World, pid: nat, failed: bool, e: Environment)
    requires r.service == TaskServiceOf(r.settings) && DrivesSoundly(r, w, pid, e)
    ensures GoesOn(r, w, pid, e, SendTail(r, w, pid, failed, e))
  {
    var f := Top(w, pid);
    var note := Note(e.ids(2), f.employee, Some(f.taskId), "task.execution_error");
    NoteKeepsTasks(r.settings, w.tables, note);
    FailingDriverGoesOn(r, w, pid, e, if failed then w else Issue(r, w, FromSend(f.epoch), note));
  }

  lemma FaultyTailGoesOn(r: Roles, w: World, pid: nat, e: Environment)
    requires r.service == TaskServiceOf(r.settings) && DrivesSoundly(r, w, pid, e)
    ensures var f := Top(w, pid);
            var noted := Record(r, w, FromSend(f.epoch), e, 0, f.employee, f.taskId, "task.execution_error");
            GoesOn(r, w, pid, e, SendTail(r, noted, pid, true, e))
  {
    var f := Top(w, pid);
    var note := Note(e.ids(0), f.employee, Some(f.taskId), "task.execution_error");
    NoteKeepsTasks(r.settings, w.tables, note);
    FailingDriverGoesOn(r, w, pid, e, Issue(r, w, FromSend(f.epoch), note));
  }

  lemma EndedStreamIsTail(r: Roles, w: World, pid: nat, input: Input, e: Environment)
    requires HasTop(w, pid) && Top(w, pid).kind == Sending && Top(w, pid).epoch == w.epoch
    requires EndsItsStream(Top(w, pid), input)
    ensures var f := Top(w, pid);
            Step(r, w, pid, input, e) ==
              if input.StreamError? then
                SendTail(r, Record(r, w, FromSend(f.epoch), e, 0, f.employee, f.taskId, "task.execution_error"), pid,
                  true, e)
              else SendTail(r, w, pid, f.phase == Ended(true), e)
  {
  }

  lemma EndedStreamGoesOn(r: Roles, w: World, pid: nat, input: Input, e: Environment, w': World)
    requires r.service == TaskServiceOf(r.settings) && DrivesSoundly(r, w, pid, e)
    requires EndsItsStream(Top(w, pid), input) && w' == Step(r, w, pid, input, e)
    ensures GoesOn(r, w, pid, e, w')
  {
    EndedStreamIsTail(r, w, pid, input, e);
    if input.StreamError? {
      FaultyTailGoesOn(r, w, pid, e);
    } else {
      TailGoesOn(r, w, pid, Top(w, pid).phase == Ended(true), e);
    }
  }

  lemma ReachableWorldIsSound(r: Roles, run: seq<Stretch>, pid: nat)
    requires r.service == TaskServiceOf(r.settings) && RunIsFresh(r, INITIAL, run)
    ensures var w := Orchestrator.After(r, INITIAL, run);
            && TasksAreFine(r, w.tables) && StoredCanBePut(w.tables)
            && (HasTop(w, pid) && Top(w, pid).kind == Sending ==>
                 IsEmployee(r.settings.company.employees, Top(w, pid).employee))
  {
    var w := Orchestrator.After(r, INITIAL, run);
    ServiceSupports(r);
    EmptyStoreIsFine(r.settings);
    RunStaysAttended(r, (t: Tables) => TasksAreFine(r, t) && StoredCanBePut(t), INITIAL, run);
    assert pid in w.processes ==> IsEmployed(r, w.processes[pid]);
  }

  /** In every reachable world: when the stream of a current driver ends while its task
      runs, the task is given back within its retries or blocked, no other task
      changes, and the driver waits for a new session exactly if there is one to
      replace and a retry left. */
  lemma EndedStreamsAreRetried(r: Roles, run: seq<Stretch>, pid: nat, input: Input, e: Environment)
    requires r.service == TaskServiceOf(r.settings) && RunIsFresh(r, INITIAL, run)
    requires var w := Orchestrator.After(r, INITIAL, run);
             && IsFresh(w.tables, e) && HasTop(w, pid)
             && Top(w, pid).kind == Sending && Top(w, pid).epoch == w.epoch
             && Top(w, pid).taskId in RunningTasks(w.tables) && EndsItsStream(Top(w, pid), input)
    ensures var w := Orchestrator.After(r, INITIAL, run);
            GoesOn(r, w, pid, e, Step(r, w, pid, input, e))
  {
    ReachableWorldIsSound(r, run, pid);
    var w := Orchestrator.After(r, INITIAL, run);
    EndedStreamGoesOn(r, w, pid, input, e, Step(r, w, pid, input, e));
  }

  /** A fault of the session, an action for another task and an action that failed stop
      the driver from listening, so that its stream ends over a fault next. */
  lemma FaultsEndTheStream(r: Roles, w: World, pid: nat, input: Input, e: Environment)
    requires HasTop(w, pid) && Top(w, pid).kind == Sending && Top(w, pid).epoch == w.epoch
    requires var f := Top(w, pid);
             || (f.phase == Streaming && input.ErrorEvent?)
             || (f.phase == Streaming && input.Proposed? && input.action.taskId != Some(f.taskId))
             || (f.phase == Returned(true) && input.Continue?)
    ensures var w' := Step(r, w, pid, input, e);
            && w'.processes == SetPhase(w, pid, Ended(true)).processes
            && EndsItsStream(Top(w', pid), Continue)
  {
  }

  lemma StartedTaskRuns(r: Roles, t: Tables, id: TaskId, actor: EmployeeId, eventId: EventId)
    requires r.service == TaskServiceOf(r.settings) && TasksAreFine(r, t)
    requires r.service.succeeds(t, Transition(id, Running, actor, eventId))
    ensures var t' := r.service.perform(t, Transition(id, Running, actor, eventId));
            id in RunningTasks(t') && HasOwner(r, t', id) && t'.tasks[id].owner == Some(actor)
  {
  }

  /** A replaced session goes on with its task: the task runs again, under the driver
      that waited, if there is room for it and it can start. */
  lemma ReplacedSessionsGoOn(r: Roles, w: World, pid: nat, e: Environment)
    requires r.service == TaskServiceOf(r.settings) && HasTop(w, pid) && Top(w, pid).epoch == w.epoch
    requires TasksAreFine(r, w.tables) && HasCapacity(r, w.tables)
    requires var f := Top(w, pid);
             r.service.succeeds(w.tables, Transition(f.taskId, Running, f.employee, e.ids(0)))
    ensures var f, w' := Top(w, pid), RestartTask(r, w, pid, e);
            && f.taskId in RunningTasks(w'.tables)
            && w'.processes == SetTop(w, pid, SendFrame(f.taskId, f.epoch, f.employee)).processes
  {
    var f := Top(w, pid);
    StartedTaskRuns(r, w.tables, f.taskId, f.employee, e.ids(0));
  }
}
