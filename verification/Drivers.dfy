/**
 No running task is left alone: a task that was set running since the last stop
 has a driver of the current epoch, and recovery gives one to the tasks that were
 running before it.
 */
module Drivers {
  import opened Company
  import opened TaskGraph
  import opened TaskHistory
  import opened TaskModel
  import opened TaskRuns
  import opened Orchestrator
  import opened Wrappers

  /** A driver that will look at its task again. One that waits for a replaced
      session has already given the task back. */
  predicate IsDriving(f: Frame, epoch: nat, id: TaskId) {
    f.kind == Sending && f.taskId == id && f.epoch == epoch && f.phase != Resuming && f.phase != Rebuilding
  }

  predicate Drives(stack: Stack, epoch: nat, id: TaskId) {
    stack.On? && (IsDriving(stack.top, epoch, id) || Drives(stack.below, epoch, id))
  }

  ghost predicate IsDriven(processes: map<nat, Stack>, epoch: nat, id: TaskId) {
    exists pid :: pid in processes && Drives(processes[pid], epoch, id)
  }

  /** The drivers act for employees of the company. */
  predicate IsEmployed(r: Roles, stack: Stack) {
    stack.On? ==>
      && (stack.top.kind == Sending ==> IsEmployee(r.settings.company.employees, stack.top.employee))
      && IsEmployed(r, stack.below)
  }

  /** The tasks set running in an epoch. */
  function StartedIn(issued: seq<Issued>, epoch: nat): set<TaskId> {
    if issued == [] then {}
    else
      var last := issued[|issued| - 1];
      StartedIn(issued[..|issued| - 1], epoch) + if last.at == epoch && IsStart(last.command)
          then {last.command.taskId} else {}
  }

  // What the task service guarantees, as far as drivers rely on it.

  function IdsOf(c: Command): set<EventId> {
    if c.Submit? then {c.eventId, c.reviewId} else {c.eventId}
  }

  function LogIds(t: Tables): set<EventId> {
    set i | 0 <= i < |t.log| :: t.log[i].id
  }

  function StartOf(c: Command): set<TaskId> {
    if IsStart(c) then {c.taskId} else {}
  }

  function Failing(id: TaskId, actorId: EmployeeId, eventId: EventId): Command {
    Transition(id, Failed, actorId, eventId)
  }

  type Condition = Tables -> bool

  ghost predicate OnlyStartsRun(r: Roles, ok: Condition) {
    forall t, c {:trigger ok(t), r.service.perform(t, c)} :: ok(t) && (IsStart(c) ==> HasCapacity(r, t)) ==>
      && ok(r.service.perform(t, c))
      && RunningTasks(r.service.perform(t, c)) <= RunningTasks(t) + StartOf(c)
      && LogIds(r.service.perform(t, c)) <= LogIds(t) + IdsOf(c)
  }

  ghost predicate RunningTasksHaveOwners(r: Roles, ok: Condition) {
    forall t, id {:trigger ok(t), HasOwner(r, t, id)} :: ok(t) && id in RunningTasks(t) ==> HasOwner(r, t, id)
  }

  ghost predicate RunningTasksCanFail(r: Roles, ok: Condition) {
    forall t, id, actorId, eventId {:trigger ok(t), Failing(id, actorId, eventId)} :: ok(t) ==>
      var c := Failing(id, actorId, eventId);
      && (id in RunningTasks(t) && IsEmployee(r.settings.company.employees, actorId) && eventId !in LogIds(t) ==>
           r.service.succeeds(t, c))
      && (r.service.succeeds(t, c) ==> id !in RunningTasks(r.service.perform(t, c)))
  }

  ghost predicate Supports(r: Roles, ok: Condition) {
    OnlyStartsRun(r, ok) && RunningTasksHaveOwners(r, ok) && RunningTasksCanFail(r, ok)
  }

  /** Event ids are new, and differ within a stretch. */
  ghost predicate IsFresh(t: Tables, e: Environment) {
    && (forall n :: 0 <= n ==> e.ids(n) !in LogIds(t))
    && (forall m, n :: 0 <= m < n ==> e.ids(m) != e.ids(n))
  }

  // The invariant.

  ghost predicate ProcessesAreSound(r: Roles, w: World) {
    forall pid :: pid in w.processes ==> pid < w.nextProcess && IsEmployed(r, w.processes[pid])
  }

  /** Nothing was started in a later epoch, and what was started in this one is driven,
      apart from the tasks of `but`, which are about to get their driver. */
  ghost predicate StartedTasksAreDriven(w: World, but: set<TaskId>) {
    forall id, epoch {:trigger id in StartedIn(w.issued, epoch)} ::
        w.epoch <= epoch && id in StartedIn(w.issued, epoch) ==>
      epoch == w.epoch && (id in RunningTasks(w.tables) && id !in but ==> IsDriven(w.processes, w.epoch, id))
  }

  ghost predicate IsAttendedBut(r: Roles, ok: Condition, w: World, but: set<TaskId>) {
    && ok(w.tables)
    && ProcessesAreSound(r, w)
    && StartedTasksAreDriven(w, but)
  }

  ghost predicate IsAttended(r: Roles, ok: Condition, w: World) {
    IsAttendedBut(r, ok, w, {})
  }

  /** Stack by stack, what was driven still is. */
  ghost predicate Covers(before: Stack, after: Stack, epoch: nat) {
    forall id :: Drives(before, epoch, id) ==> Drives(after, epoch, id)
  }

  lemma IssueStaysAttended(r: Roles, ok: Condition, w: World, origin: Origin, c: Command)
    requires Supports(r, ok) && IsAttended(r, ok, w) && !IsStart(c)
    ensures IsAttended(r, ok, Issue(r, w, origin, c))
  {
    var w' := Issue(r, w, origin, c);
    assert w'.issued[..|w.issued|] == w.issued;
  }

  lemma StackStaysAttended(r: Roles, ok: Condition, w: World, pid: nat, stack: Stack)
    requires IsAttended(r, ok, w) && pid in w.processes
    requires Covers(w.processes[pid], stack, w.epoch) && IsEmployed(r, stack)
    ensures IsAttended(r, ok, w.(processes := w.processes[pid := stack]))
  {
    var processes := w.processes[pid := stack];
    forall id | IsDriven(w.processes, w.epoch, id)
      ensures IsDriven(processes, w.epoch, id)
    {
      var p :| p in w.processes && Drives(w.processes[p], w.epoch, id);
      assert Drives(processes[p], w.epoch, id);
    }
  }

  /** A driver may go when it is outdated or its task is not running. */
  predicate MayGo(w: World, f: Frame) {
    f.kind == Sending ==> !IsDriving(f, w.epoch, f.taskId) || f.taskId !in RunningTasks(w.tables)
  }

  lemma CompleteStaysAttended(r: Roles, ok: Condition, w: World, pid: nat, failed: bool)
    requires IsAttended(r, ok, w) && HasTop(w, pid) && MayGo(w, Top(w, pid))
    ensures IsAttended(r, ok, Complete(w, pid, failed))
  {
    var processes := Complete(w, pid, failed).processes;
    var f := Top(w, pid);
    assert IsEmployed(r, w.processes[pid]) && IsEmployed(r, w.processes[pid].below);
    forall id | id in RunningTasks(w.tables) && IsDriven(w.processes, w.epoch, id)
      ensures IsDriven(processes, w.epoch, id)
    {
      var p :| p in w.processes && Drives(w.processes[p], w.epoch, id);
      assert p != pid ==> Drives(processes[p], w.epoch, id);
      if p == pid {
        assert !IsDriving(f, w.epoch, id);
        assert Drives(w.processes[pid].below, w.epoch, id);
        assert Drives(processes[pid], w.epoch, id);
      }
    }
  }

  lemma StartStaysAttended(r: Roles, ok: Condition, w: World, taskId: TaskId, stack: Stack)
    requires IsAttended(r, ok, w) && IsEmployed(r, stack)
    ensures IsAttended(r, ok, Start(w, taskId, stack))
  {
    var processes := Start(w, taskId, stack).processes;
    forall id | IsDriven(w.processes, w.epoch, id)
      ensures IsDriven(processes, w.epoch, id)
    {
      var p :| p in w.processes && Drives(w.processes[p], w.epoch, id);
      assert Drives(processes[p], w.epoch, id);
    }
  }

  lemma IssuedStart(r: Roles, ok: Condition, w: World, origin: Origin, c: Command)
    requires Supports(r, ok) && IsAttended(r, ok, w) && IsStart(c) && HasCapacity(r, w.tables)
    ensures IsAttendedBut(r, ok, Issue(r, w, origin, c), {c.taskId})
  {
    var w' := Issue(r, w, origin, c);
    assert w'.issued[..|w.issued|] == w.issued;
  }

  lemma DriverStarts(r: Roles, ok: Condition, w: World, taskId: TaskId)
    requires Supports(r, ok) && IsAttendedBut(r, ok, w, {taskId})
    ensures IsAttended(r, ok, StartInFlight(r, w, taskId))
  {
    var processes := StartInFlight(r, w, taskId).processes;
    assert HasOwner(r, w.tables, taskId) || taskId !in RunningTasks(w.tables);
    assert IsEmployed(r, NoFrame) && IsEmployed(r, processes[w.nextProcess].below);
    forall id | IsDriven(w.processes, w.epoch, id)
      ensures IsDriven(processes, w.epoch, id)
    {
      var p :| p in w.processes && Drives(w.processes[p], w.epoch, id);
      assert Drives(processes[p], w.epoch, id);
    }
    assert HasOwner(r, w.tables, taskId) ==> Drives(processes[w.nextProcess], w.epoch, taskId);
  }

  /** The continuations of `pid` are still there, untouched. */
  predicate KeepsStack(w: World, w': World, pid: nat) {
    && w'.epoch == w.epoch
    && (pid in w.processes && pid < w.nextProcess ==>
          pid in w'.processes && w'.processes[pid] == w.processes[pid] && w.nextProcess <= w'.nextProcess)
  }

  lemma StartReadyTaskStaysAttended(r: Roles, ok: Condition, w: World, pid: nat, origin: Origin, taskId: TaskId,
                                    actorId: EmployeeId, e: Environment)
    requires Supports(r, ok) && IsAttended(r, ok, w)
    ensures var w' := StartReadyTask(r, w, origin, taskId, actorId, e).0;
            && IsAttended(r, ok, w')
            && KeepsStack(w, w', pid)
  {
    if HasCapacity(r, w.tables) {
      var start := Transition(taskId, Running, actorId, e.ids(1));
      IssuedStart(r, ok, w, origin, start);
      DriverStarts(r, ok, Issue(r, w, origin, start), taskId);
    } else {
      IssueStaysAttended(r, ok, w, origin,
          Note(e.ids(1), r.settings.leaderId, Some(taskId), "user.approval.requested"));
    }
  }

  lemma RestartStaysAttended(r: Roles, ok: Condition, w: World, pid: nat, e: Environment)
    requires Supports(r, ok) && IsAttended(r, ok, w) && HasTop(w, pid)
    requires Top(w, pid).kind == Sending && (Top(w, pid).phase == Resuming || Top(w, pid).phase == Rebuilding)
    ensures IsAttended(r, ok, RestartTask(r, w, pid, e))
  {
    var f := Top(w, pid);
    var start := Transition(f.taskId, Running, f.employee, e.ids(0));
    var note := Note(e.ids(0), r.settings.leaderId, Some(f.taskId), "user.approval.requested");
    CompleteStaysAttended(r, ok, w, pid, true);
    CompleteStaysAttended(r, ok, w, pid, false);
    if HasCapacity(r, w.tables) {
      IssuedStart(r, ok, w, FromSend(f.epoch), start);
      if f.epoch == w.epoch {
        DriverGoesOn(r, ok, Issue(r, w, FromSend(f.epoch), start), pid);
      }
    } else {
      NotedLastStaysAttended(r, ok, w, pid, FromSend(f.epoch), note);
    }
  }

  /** The continuation on top of `pid` drives its task again, or gives up on one that does not run. */
  lemma DriverGoesOn(r: Roles, ok: Condition, w: World, pid: nat)
    requires Supports(r, ok) && HasTop(w, pid) && Top(w, pid).kind == Sending && Top(w, pid).epoch == w.epoch
    requires Top(w, pid).phase == Resuming || Top(w, pid).phase == Rebuilding
    requires IsAttendedBut(r, ok, w, {Top(w, pid).taskId})
    ensures var id := Top(w, pid).taskId;
            var w' := if HasOwner(r, w.tables, id)
                then SetTop(w, pid, SendFrame(id, w.epoch, w.tables.tasks[id].owner.value))
                      else Complete(w, pid, true);
            IsAttended(r, ok, w')
  {
    var id := Top(w, pid).taskId;
    assert HasOwner(r, w.tables, id) || id !in RunningTasks(w.tables);
    assert IsEmployed(r, w.processes[pid]) && IsEmployed(r, w.processes[pid].below);
    if HasOwner(r, w.tables, id) {
      var stack := On(SendFrame(id, w.epoch, w.tables.tasks[id].owner.value), w.processes[pid].below);
      var processes := w.processes[pid := stack];
      assert Drives(processes[pid], w.epoch, id);
      forall other | IsDriven(w.processes, w.epoch, other)
        ensures IsDriven(processes, w.epoch, other)
      {
        var p :| p in w.processes && Drives(w.processes[p], w.epoch, other);
        assert Drives(processes[p], w.epoch, other);
      }
    } else {
      assert IsAttended(r, ok, w);
      CompleteStaysAttended(r, ok, w, pid, true);
    }
  }

  lemma NotedLastStaysAttended(r: Roles, ok: Condition, w: World, pid: nat, origin: Origin, note: Command)
    requires Supports(r, ok) && IsAttended(r, ok, w) && HasTop(w, pid) && MayGo(w, Top(w, pid)) && note.Note?
    ensures IsAttended(r, ok, Complete(Issue(r, w, origin, note), pid, false))
  {
    IssueStaysAttended(r, ok, w, origin, note);
    CompleteStaysAttended(r, ok, Issue(r, w, origin, note), pid, false);
  }

  lemma RetryStaysAttended(r: Roles, ok: Condition, w: World, pid: nat, f: Frame, e: Environment)
    requires Supports(r, ok) && IsAttended(r, ok, w) && HasTop(w, pid) && Top(w, pid) == f
    requires f.kind == Sending && f.taskId !in RunningTasks(w.tables)
    ensures IsAttended(r, ok, RetryTask(r, w, pid, f, e))
  {
    var retry := Retry(f.taskId, r.settings.leaderId, e.ids(4));
    var retried := Issue(r, w, FromSend(f.epoch), retry);
    if !r.service.succeeds(w.tables, retry) {
      CompleteStaysAttended(r, ok, w, pid, true);
    } else {
      IssueStaysAttended(r, ok, w, FromSend(f.epoch), retry);
      assert f.taskId !in RunningTasks(retried.tables);
      if IsIn(retried.tables, f.taskId, Blocked) || !HasCapacity(r, retried.tables) {
        NotedLastStaysAttended(r, ok, retried, pid, FromSend(f.epoch),
            Note(e.ids(5), r.settings.leaderId, Some(f.taskId), "user.approval.requested"));
      } else {
        CompleteStaysAttended(r, ok, retried, pid, true);
        GivenBackStaysAttended(r, ok, retried, pid, Resuming);
      }
    }
  }

  /** A driver whose task does not run may wait for a new session. */
  lemma GivenBackStaysAttended(r: Roles, ok: Condition, w: World, pid: nat, phase: Phase)
    requires IsAttended(r, ok, w) && HasTop(w, pid) && MayGo(w, Top(w, pid))
    ensures IsAttended(r, ok, SetPhase(w, pid, phase))
  {
    var f := Top(w, pid);
    var processes := SetPhase(w, pid, phase).processes;
    assert IsEmployed(r, w.processes[pid]) && IsEmployed(r, w.processes[pid].below);
    forall id | id in RunningTasks(w.tables) && IsDriven(w.processes, w.epoch, id)
      ensures IsDriven(processes, w.epoch, id)
    {
      var p :| p in w.processes && Drives(w.processes[p], w.epoch, id);
      assert p == pid ==> !IsDriving(f, w.epoch, id) && Drives(w.processes[pid].below, w.epoch, id);
      assert Drives(processes[p], w.epoch, id);
    }
  }

  lemma FailStaysAttended(r: Roles, ok: Condition, w: World, pid: nat, f: Frame, e: Environment)
    requires Supports(r, ok) && IsAttended(r, ok, w) && HasTop(w, pid) && Top(w, pid) == f
    requires f.kind == Sending && e.ids(3) !in LogIds(w.tables)
    ensures IsAttended(r, ok, FailTask(r, w, pid, f, e))
  {
    var fail := Failing(f.taskId, f.employee, e.ids(3));
    assert IsEmployed(r, w.processes[pid]);
    assert f.taskId in RunningTasks(w.tables) ==> r.service.succeeds(w.tables, fail);
    IssueStaysAttended(r, ok, w, FromSend(f.epoch), fail);
    if r.service.succeeds(w.tables, fail) {
      RetryStaysAttended(r, ok, Issue(r, w, FromSend(f.epoch), fail), pid, f, e);
    } else {
      CompleteStaysAttended(r, ok, w, pid, true);
    }
  }

  lemma SendTailStaysAttended(r: Roles, ok: Condition, w: World, pid: nat, failed: bool, e: Environment)
    requires Supports(r, ok) && IsAttended(r, ok, w) && HasTop(w, pid) && Top(w, pid).kind == Sending
    requires e.ids(3) !in LogIds(w.tables) && e.ids(2) != e.ids(3)
    ensures IsAttended(r, ok, SendTail(r, w, pid, failed, e))
  {
    var f := Top(w, pid);
    if f.epoch != w.epoch || f.taskId !in RunningTasks(w.tables) {
      CompleteStaysAttended(r, ok, w, pid, true);
      CompleteStaysAttended(r, ok, w, pid, false);
    } else if failed {
      FailStaysAttended(r, ok, w, pid, f, e);
    } else {
      var note := Note(e.ids(2), f.employee, Some(f.taskId), "task.execution_error");
      var noted := Issue(r, w, FromSend(f.epoch), note);
      IssueStaysAttended(r, ok, w, FromSend(f.epoch), note);
      FailStaysAttended(r, ok, noted, pid, f, e);
    }
  }

  // Dispatched actions.

  lemma DispatchOnTaskStaysAttended(r: Roles, ok: Condition, w: World, pid: nat, origin: Origin, taskId: TaskId,
                                    actorId: EmployeeId, p: Proposal, e: Environment)
    requires Supports(r, ok) && IsAttended(r, ok, w)
    requires !p.RequestApproval? && !p.CompleteCompany? && !p.SendMessage?
    ensures var w' := DispatchOnTask(r, w, origin, taskId, actorId, p, e).0;
            && IsAttended(r, ok, w')
            && KeepsStack(w, w', pid)
  {
    match p
    case ProposeTask(title, objective, dependencies, criteria) =>
      IssueStaysAttended(r, ok, w, origin, Propose(taskId, title, objective, dependencies, criteria, e.ids(0)));
    case ApproveTask => IssueStaysAttended(r, ok, w, origin, Transition(taskId, Completed, actorId, e.ids(0)));
    case BlockTask => IssueStaysAttended(r, ok, w, origin, Transition(taskId, Blocked, actorId, e.ids(0)));
    case AssignTask(assignee) => AssignStaysAttended(r, ok, w, pid, origin, taskId, actorId, assignee, e);
    case SubmitTask(artifacts, evidence) =>
      IssueStaysAttended(r, ok, w, origin, Submit(taskId, actorId, artifacts, evidence, e.ids(0), e.ids(1)));
    case RejectTask(findings) => RejectStaysAttended(r, ok, w, pid, origin, taskId, actorId, findings, e);
    case StartTask => StartReadyTaskStaysAttended(r, ok, w, pid, origin, taskId, actorId, e);
    case RequestReview =>
  }

  lemma AssignStaysAttended(r: Roles, ok: Condition, w: World, pid: nat, origin: Origin, taskId: TaskId,
                            actorId: EmployeeId, assignee: EmployeeId, e: Environment)
    requires Supports(r, ok) && IsAttended(r, ok, w)
    ensures var w' := DispatchOnTask(r, w, origin, taskId, actorId, AssignTask(assignee), e).0;
            && IsAttended(r, ok, w')
            && KeepsStack(w, w', pid)
  {
    var assign := Assign(taskId, assignee, e.ids(0));
    if r.service.succeeds(w.tables, assign) {
      IssueStaysAttended(r, ok, w, origin, assign);
      StartReadyTaskStaysAttended(r, ok, Issue(r, w, origin, assign), pid, origin, taskId, assignee, e);
    }
  }

  lemma RejectStaysAttended(r: Roles, ok: Condition, w: World, pid: nat, origin: Origin, taskId: TaskId,
                            actorId: EmployeeId, findings: seq<string>, e: Environment)
    requires Supports(r, ok) && IsAttended(r, ok, w)
    ensures var w' := DispatchOnTask(r, w, origin, taskId, actorId, RejectTask(findings), e).0;
            && IsAttended(r, ok, w')
            && KeepsStack(w, w', pid)
  {
    var reject := Reject(taskId, actorId, findings, e.ids(0));
    var rejected := Issue(r, w, origin, reject);
    if r.service.succeeds(w.tables, reject) {
      IssueStaysAttended(r, ok, w, origin, reject);
      if IsIn(rejected.tables, taskId, Blocked) {
        IssueStaysAttended(r, ok, rejected, origin,
            Note(e.ids(1), r.settings.leaderId, Some(taskId), "user.approval.requested"));
      } else if taskId in rejected.tables.tasks && rejected.tables.tasks[taskId].owner.Some? {
        StartReadyTaskStaysAttended(r, ok, rejected, pid, origin, taskId, rejected.tables.tasks[taskId].owner.value, e);
      }
    }
  }

  /** Nothing that is dispatched makes its caller wait for a driver. */
  lemma NobodyWaitsForADriver(r: Roles, w: World, origin: Origin, a: Action, allowed: bool, e: Environment)
    ensures var d := Dispatch(r, w, origin, a, allowed, e).1; d.Awaits? ==> d.frame.kind != Sending
  {
  }

  lemma CallDispatchStaysAttended(r: Roles, ok: Condition, w: World, pid: nat, origin: Origin, a: Action,
                                  allowed: bool, e: Environment)
    requires Supports(r, ok) && IsAttended(r, ok, w) && HasTop(w, pid)
    ensures IsAttended(r, ok, CallDispatch(r, w, pid, origin, a, allowed, e))
  {
    var (w', dispatched) := Dispatch(r, w, origin, a, allowed, e);
    var p := a.proposal;
    if p.RequestApproval? {
      IssueStaysAttended(r, ok, w, origin, Note(e.ids(0), a.actorId, a.taskId, "user.approval.requested"));
    } else if p.CompleteCompany? {
      IssueStaysAttended(r, ok, w, origin, Note(e.ids(0), a.actorId, a.taskId, "company.completion_requested"));
    } else if p.SendMessage? {
      IssueStaysAttended(r, ok, w, origin, Note(e.ids(0), a.actorId, a.taskId, "employee.message_sent"));
    } else if a.taskId.Some? {
      DispatchOnTaskStaysAttended(r, ok, w, pid, origin, a.taskId.value, a.actorId, p, e);
    }
    assert IsAttended(r, ok, w') && KeepsStack(w, w', pid);
    NobodyWaitsForADriver(r, w, origin, a, allowed, e);
    CallStaysAttended(r, ok, w', pid, dispatched);
  }

  lemma CallStaysAttended(r: Roles, ok: Condition, w: World, pid: nat, dispatched: Dispatched)
    requires IsAttended(r, ok, w) && HasTop(w, pid) && (dispatched.Awaits? ==> dispatched.frame.kind != Sending)
    ensures var f, below := Top(w, pid), w.processes[pid].below;
            var stack := match dispatched
              case Threw => On(f.(phase := Returned(true)), below)
              case Done => On(f.(phase := Returned(false)), below)
              case Awaits(callee) => On(callee, On(f.(phase := Calling), below));
            IsAttended(r, ok, w.(processes := w.processes[pid := stack]))
  {
    var f, below := Top(w, pid), w.processes[pid].below;
    var stack := match dispatched
      case Threw => On(f.(phase := Returned(true)), below)
      case Done => On(f.(phase := Returned(false)), below)
      case Awaits(callee) => On(callee, On(f.(phase := Calling), below));
    assert IsEmployed(r, w.processes[pid]) && IsEmployed(r, On(f.(phase := Calling), below));
    StackStaysAttended(r, ok, w, pid, stack);
  }

  // One stretch of a continuation.

  lemma PhaseStaysAttended(r: Roles, ok: Condition, w: World, pid: nat, frame: Frame)
    requires IsAttended(r, ok, w) && HasTop(w, pid)
    requires var f := Top(w, pid);
             frame == f.(decided := frame.decided, phase := frame.phase) && frame.phase != Resuming
                 && frame.phase != Rebuilding
    ensures IsAttended(r, ok, SetTop(w, pid, frame))
  {
    assert IsEmployed(r, w.processes[pid]);
    StackStaysAttended(r, ok, w, pid, On(frame, w.processes[pid].below));
  }

  lemma RecordStaysAttended(r: Roles, ok: Condition, w: World, origin: Origin, e: Environment, n: nat,
                            actorId: EmployeeId, taskId: TaskId, kind: string)
    requires Supports(r, ok) && IsAttended(r, ok, w)
    ensures var w' := Record(r, w, origin, e, n, actorId, taskId, kind);
            && IsAttended(r, ok, w') && w'.processes == w.processes && w'.epoch == w.epoch
            && RunningTasks(w'.tables) <= RunningTasks(w.tables) && LogIds(w'.tables) <= LogIds(w.tables) + {e.ids(n)}
  {
    IssueStaysAttended(r, ok, w, origin, Note(e.ids(n), actorId, Some(taskId), kind));
  }

  lemma RejectedActionStaysAttended(r: Roles, ok: Condition, w: World, pid: nat, f: Frame, e: Environment)
    requires Supports(r, ok) && IsAttended(r, ok, w) && HasTop(w, pid)
    ensures var noted := Record(r, w, FromSend(f.epoch), e, 0, "core", f.taskId, "action.rejected");
            IsAttended(r, ok, SetPhase(noted, pid, Ended(true)))
  {
    var noted := Record(r, w, FromSend(f.epoch), e, 0, "core", f.taskId, "action.rejected");
    RecordStaysAttended(r, ok, w, FromSend(f.epoch), e, 0, "core", f.taskId, "action.rejected");
    PhaseStaysAttended(r, ok, noted, pid, Top(noted, pid).(phase := Ended(true)));
  }

  lemma StepStreamStaysAttended(r: Roles, ok: Condition, w: World, pid: nat, f: Frame, input: Input, e: Environment)
    requires Supports(r, ok) && IsAttended(r, ok, w) && IsFresh(w.tables, e) && HasTop(w, pid) && Top(w, pid) == f
             && f.kind == Sending
    ensures IsAttended(r, ok, StepStream(r, w, pid, f, input, e))
  {
    if f.epoch != w.epoch {
      CompleteStaysAttended(r, ok, w, pid, false);
    }
    match input
    case StreamEnd => SendTailStaysAttended(r, ok, w, pid, false, e);
    case Proposed(action, allowed) =>
      RejectedActionStaysAttended(r, ok, w, pid, f, e);
      CallDispatchStaysAttended(r, ok, w, pid, FromSend(f.epoch), action, allowed, e);
    case ErrorEvent => PhaseStaysAttended(r, ok, w, pid, f.(phase := Ended(true)));
    case StreamError =>
      RecordStaysAttended(r, ok, w, FromSend(f.epoch), e, 0, f.employee, f.taskId, "task.execution_error");
      SendTailStaysAttended(r, ok, Record(r, w, FromSend(f.epoch), e, 0, f.employee, f.taskId,
          "task.execution_error"), pid, true, e);
    case _ =>
  }

  lemma ReplacementFailsStaysAttended(r: Roles, ok: Condition, w: World, pid: nat, f: Frame, final: bool,
                                      e: Environment)
    requires Supports(r, ok) && IsAttended(r, ok, w) && HasTop(w, pid) && Top(w, pid) == f && f.kind == Sending
    requires f.phase == Resuming || f.phase == Rebuilding
    ensures IsAttended(r, ok, ReplacementFails(r, w, pid, f, final, e))
  {
    CompleteStaysAttended(r, ok, w, pid, false);
    GivenBackStaysAttended(r, ok, w, pid, Rebuilding);
    NotedLastStaysAttended(r, ok, w, pid, FromSend(f.epoch),
        Note(e.ids(0), r.settings.leaderId, Some(f.taskId), "user.approval.requested"));
  }

  lemma StepSendStaysAttended(r: Roles, ok: Condition, w: World, pid: nat, input: Input, e: Environment)
    requires Supports(r, ok) && IsAttended(r, ok, w) && IsFresh(w.tables, e) && HasTop(w, pid)
             && Top(w, pid).kind == Sending
    ensures IsAttended(r, ok, StepSend(r, w, pid, input, e))
  {
    var f := Top(w, pid);
    match f.phase
    case Streaming => StepStreamStaysAttended(r, ok, w, pid, f, input, e);
    case Returned(failed) =>
      PhaseStaysAttended(r, ok, w, pid, f.(phase := Streaming));
      RejectedActionStaysAttended(r, ok, w, pid, f, e);
      if f.epoch != w.epoch {
        CompleteStaysAttended(r, ok, w, pid, false);
      }
    case Ended(failed) => SendTailStaysAttended(r, ok, w, pid, failed, e);
    case Resuming =>
      RestartStaysAttended(r, ok, w, pid, e);
      ReplacementFailsStaysAttended(r, ok, w, pid, f, if input.ReplacementFailed? then input.cleanupFailed
          else true, e);
    case Rebuilding =>
      RestartStaysAttended(r, ok, w, pid, e);
      ReplacementFailsStaysAttended(r, ok, w, pid, f, true, e);
    case _ =>
  }

  lemma StepReviewStaysAttended(r: Roles, ok: Condition, w: World, pid: nat, input: Input, e: Environment)
    requires Supports(r, ok) && IsAttended(r, ok, w) && HasTop(w, pid) && Top(w, pid).kind == Reviewing
    ensures IsAttended(r, ok, StepReview(r, w, pid, input, e))
  {
    var f := Top(w, pid);
    CompleteStaysAttended(r, ok, w, pid, true);
    CompleteStaysAttended(r, ok, w, pid, false);
    NotedLastStaysAttended(r, ok, w, pid, FromReview(f.epoch),
        Note(e.ids(0), r.settings.leaderId, Some(f.taskId), "user.approval.requested"));
    PhaseStaysAttended(r, ok, w, pid, f.(decided := true, phase := Streaming));
    if input.Proposed? {
      CallDispatchStaysAttended(r, ok, w, pid, FromReview(f.epoch), input.action, input.allowed, e);
    }
  }

  lemma StepMessageStaysAttended(r: Roles, ok: Condition, w: World, pid: nat, input: Input, e: Environment)
    requires Supports(r, ok) && IsAttended(r, ok, w) && HasTop(w, pid) && Top(w, pid).kind == Messaging
    ensures IsAttended(r, ok, StepMessage(r, w, pid, input, e))
  {
    CompleteStaysAttended(r, ok, w, pid, true);
    CompleteStaysAttended(r, ok, w, pid, false);
    PhaseStaysAttended(r, ok, w, pid, Top(w, pid).(phase := Streaming));
    if input.Proposed? {
      CallDispatchStaysAttended(r, ok, w, pid, FromMessage, input.action, input.allowed, e);
    }
  }

  lemma StepRootStaysAttended(r: Roles, ok: Condition, w: World, pid: nat, input: Input, e: Environment)
    requires Supports(r, ok) && IsAttended(r, ok, w) && HasTop(w, pid)
    requires Top(w, pid).kind !in {Sending, Reviewing, Messaging}
    ensures IsAttended(r, ok, StepRoot(r, w, pid, input, e))
  {
    var f := Top(w, pid);
    match f.phase
    case Waiting =>
      PhaseStaysAttended(r, ok, w, pid, f.(phase := Returned(true)));
      assert IsEmployed(r, w.processes[pid]) && IsEmployed(r, On(f.(phase := Calling), w.processes[pid].below));
      StackStaysAttended(r, ok, w, pid, On(Frame(Reviewing, f.taskId, f.epoch, r.reviewerId, false, Streaming),
                                           On(f.(phase := Calling), w.processes[pid].below)));
    case Returned(failed) =>
      var origin := if f.kind.Recovery? then FromReview(f.epoch) else FromSend(f.epoch);
      RecordStaysAttended(r, ok, w, origin, e, 0, "core", f.taskId, "task.execution_error");
      var noted := if failed && f.epoch == w.epoch && !f.kind.Outside?
          then Record(r, w, origin, e, 0, "core", f.taskId, "task.execution_error") else w;
      var inFlight := if f.taskId in w.inFlight && w.inFlight[f.taskId] == pid && !f.kind.Outside?
          then w.inFlight - {f.taskId} else w.inFlight;
      CompleteStaysAttended(r, ok, noted.(inFlight := inFlight), pid, failed);
    case _ =>
  }

  // The calls from outside.

  lemma OutsideStaysAttended(r: Roles, ok: Condition, w: World, a: Action, allowed: bool, e: Environment)
    requires Supports(r, ok) && IsAttended(r, ok, w)
    ensures IsAttended(r, ok, DispatchOutside(r, w, a, allowed, e))
  {
    var started := StartOutside(w);
    assert IsEmployed(r, NoFrame);
    forall id | IsDriven(w.processes, w.epoch, id)
      ensures IsDriven(started.processes, w.epoch, id)
    {
      var p :| p in w.processes && Drives(w.processes[p], w.epoch, id);
      assert Drives(started.processes[p], w.epoch, id);
    }
    CallDispatchStaysAttended(r, ok, started, w.nextProcess, FromOutside, a, allowed, e);
  }

  lemma {:induction false} RecoveryStaysAttended(r: Roles, ok: Condition, w: World, ids: seq<TaskId>, reviews: bool)
    requires Supports(r, ok) && IsAttended(r, ok, w)
    ensures IsAttended(r, ok, if reviews then RecoverReviews(w, ids) else RecoverRunning(r, w, ids))
    decreases |ids|
  {
    if ids != [] {
      var root := On(Frame(Recovery, ids[0], w.epoch, "", false, Waiting), NoFrame);
      assert IsEmployed(r, NoFrame);
      StartStaysAttended(r, ok, w, ids[0], root);
      DriverStarts(r, ok, w, ids[0]);
      var started := if reviews then Start(w, ids[0], root) else StartInFlight(r, w, ids[0]);
      RecoveryStaysAttended(r, ok, if ids[0] in w.inFlight then w else started, ids[1..], reviews);
    }
  }

  function FirstRunning(r: Roles, t: Tables, listed: seq<TaskId>): seq<TaskId> {
    var running, max := WithStatus(t, listed, Running), r.settings.company.limits.maxParallelTasks;
    if |running| <= max then running else running[..max]
  }

  ghost predicate IsFreshFor(t: Tables, stretch: Stretch) {
    stretch.Wakes? ==> IsFresh(t, stretch.environment)
  }

  lemma ApplyStaysAttended(r: Roles, ok: Condition, w: World, stretch: Stretch)
    requires Supports(r, ok) && IsAttended(r, ok, w) && IsFreshFor(w.tables, stretch)
    ensures IsAttended(r, ok, Apply(r, w, stretch))
  {
    match stretch
    case Wakes(pid, input, e) =>
      if HasTop(w, pid) {
        match Top(w, pid).kind
        case Sending => StepSendStaysAttended(r, ok, w, pid, input, e);
        case Reviewing => StepReviewStaysAttended(r, ok, w, pid, input, e);
        case Messaging => StepMessageStaysAttended(r, ok, w, pid, input, e);
        case _ => StepRootStaysAttended(r, ok, w, pid, input, e);
      }
    case Asked(a, allowed, e) => OutsideStaysAttended(r, ok, w, a, allowed, e);
    case Commanded(c) =>
      if !IsStart(c) {
        IssueStaysAttended(r, ok, w, FromOutside, c);
      }
    case Recovers(listed) =>
      var first := FirstRunning(r, w.tables, listed);
      RecoveryStaysAttended(r, ok, w, first, false);
      RecoveryStaysAttended(r, ok, RecoverRunning(r, w, first), WithStatus(w.tables, listed, Review), true);
    case Stops =>
    case Resumes =>
  }

  /** Event ids are never used twice in the run. */
  ghost predicate RunIsFresh(r: Roles, w: World, run: seq<Stretch>) {
    run != [] ==>
      && RunIsFresh(r, w, run[..|run| - 1])
      && IsFreshFor(Orchestrator.After(r, w, run[..|run| - 1]).tables, run[|run| - 1])
  }

  lemma {:induction false} RunStaysAttended(r: Roles, ok: Condition, w: World, run: seq<Stretch>)
    requires Supports(r, ok) && IsAttended(r, ok, w) && RunIsFresh(r, w, run)
    ensures IsAttended(r, ok, Orchestrator.After(r, w, run))
  {
    if run != [] {
      RunStaysAttended(r, ok, w, run[..|run| - 1]);
      ApplyStaysAttended(r, ok, Orchestrator.After(r, w, run[..|run| - 1]), run[|run| - 1]);
    }
  }

  // The task service gives what is needed.

  lemma WrittenIds(s: Settings, t: Tables, c: Command)
    requires IdsMatch(t)
    ensures LogIds(Perform(s, t, c)) <= LogIds(t) + IdsOf(c)
  {
    var t' := Perform(s, t, c);
    forall i | 0 <= i < |t'.log|
      ensures t'.log[i].id in LogIds(t) + IdsOf(c)
    {
      if i < |t.log| {
        assert t'.log[i] == t.log[i];
      }
    }
  }

  lemma RunningTaskCanFail(s: Settings, t: Tables, id: TaskId, actorId: EmployeeId, eventId: EventId)
    requires IdsMatch(t) && StoredCanBePut(t)
    ensures id in RunningTasks(t) && IsEmployee(s.company.employees, actorId) && eventId !in LogIds(t)
            ==> Settle(t, Decide(s, t, Failing(id, actorId, eventId))).0.Written?
    ensures Settle(t, Decide(s, t, Failing(id, actorId, eventId))).0.Written? ==>
              id !in RunningTasks(Perform(s, t, Failing(id, actorId, eventId)))
  {
    assert forall i :: 0 <= i < |t.log| ==> t.log[i].id in LogIds(t);
  }

  lemma ServiceSupports(r: Roles)
    requires r.service == TaskServiceOf(r.settings)
    ensures Supports(r, (t: Tables) => TasksAreFine(r, t) && StoredCanBePut(t))
  {
    var ok := (t: Tables) => TasksAreFine(r, t) && StoredCanBePut(t);
    forall t, c | ok(t) && (IsStart(c) ==> HasCapacity(r, t))
      ensures ok(r.service.perform(t, c)) && RunningTasks(r.service.perform(t, c)) <= RunningTasks(t) + StartOf(c)
      ensures LogIds(r.service.perform(t, c)) <= LogIds(t) + IdsOf(c)
    {
      LawfulCommandKeepsTasksFine(r, t, Issued(FromOutside, 0, c));
      RunningAfter(r.settings, t, c);
      StoredStaysPuttable(r.settings, t, c);
      WrittenIds(r.settings, t, c);
    }
    forall t, id, actorId, eventId | ok(t)
      ensures id in RunningTasks(t) && IsEmployee(r.settings.company.employees, actorId) && eventId !in LogIds(t)
              ==> r.service.succeeds(t, Failing(id, actorId, eventId))
      ensures r.service.succeeds(t, Failing(id, actorId, eventId)) ==>
                id !in RunningTasks(r.service.perform(t, Failing(id, actorId, eventId)))
    {
      RunningTaskCanFail(r.settings, t, id, actorId, eventId);
    }
  }

  // The main results.

  /** However stretches interleave: a task that runs, and was set running since the
      last stop, has a driver of the current epoch that will look at it again. */
  lemma StartedTasksHaveDrivers(r: Roles, run: seq<Stretch>, id: TaskId)
    requires r.service == TaskServiceOf(r.settings) && RunIsFresh(r, INITIAL, run)
    requires var w := Orchestrator.After(r, INITIAL, run);
             id in RunningTasks(w.tables) && id in StartedIn(w.issued, w.epoch)
    ensures var w := Orchestrator.After(r, INITIAL, run); IsDriven(w.processes, w.epoch, id)
  {
    ServiceSupports(r);
    EmptyStoreIsFine(r.settings);
    RunStaysAttended(r, (t: Tables) => TasksAreFine(r, t) && StoredCanBePut(t), INITIAL, run);
  }

  // Process by process: what a driver can do to its task.

  function StackOf(w: World, pid: nat): Stack {
    if pid in w.processes then w.processes[pid] else NoFrame
  }

  /** What `before` drove, `after` drives, unless it does not run any more. */
  ghost predicate CoversRunning(before: Stack, after: Stack, epoch: nat, t: Tables) {
    forall id :: Drives(before, epoch, id) ==> Drives(after, epoch, id) || id !in RunningTasks(t)
  }

  lemma CompleteCovers(w: World, pid: nat, failed: bool)
    requires HasTop(w, pid) && MayGo(w, Top(w, pid))
    ensures CoversRunning(w.processes[pid], StackOf(Complete(w, pid, failed), pid), w.epoch, w.tables)
  {
  }

  /** Another frame on top, at the same place or above the old one, which drives as before. */
  lemma TopCovers(stack: Stack, f: Frame, epoch: nat, t: Tables)
    requires stack.On?
    requires forall id :: IsDriving(stack.top, epoch, id) ==> IsDriving(f, epoch, id) || id !in RunningTasks(t)
    ensures CoversRunning(stack, On(f, stack.below), epoch, t)
    ensures forall callee :: CoversRunning(stack, On(callee, On(f, stack.below)), epoch, t)
  {
    forall callee, id | Drives(stack, epoch, id) && id in RunningTasks(t)
      ensures Drives(On(callee, On(f, stack.below)), epoch, id)
    {
      assert Drives(On(f, stack.below), epoch, id);
    }
  }

  lemma CallDispatchCovers(r: Roles, w: World, pid: nat, origin: Origin, a: Action, allowed: bool, e: Environment)
    requires HasTop(w, pid)
    ensures var w' := CallDispatch(r, w, pid, origin, a, allowed, e);
            CoversRunning(w.processes[pid], StackOf(w', pid), w.epoch, w'.tables)
  {
    var f, w' := Top(w, pid), CallDispatch(r, w, pid, origin, a, allowed, e);
    TopCovers(w.processes[pid], f.(phase := Returned(true)), w.epoch, w'.tables);
    TopCovers(w.processes[pid], f.(phase := Returned(false)), w.epoch, w'.tables);
    TopCovers(w.processes[pid], f.(phase := Calling), w.epoch, w'.tables);
  }

  lemma PhaseCovers(w: World, pid: nat, f: Frame)
    requires HasTop(w, pid) && (IsDriving(Top(w, pid), w.epoch, Top(w, pid).taskId) ==>
                                  IsDriving(f, w.epoch, Top(w, pid).taskId)
                                      || Top(w, pid).taskId !in RunningTasks(w.tables))
    ensures CoversRunning(w.processes[pid], StackOf(SetTop(w, pid, f), pid), w.epoch, w.tables)
  {
    TopCovers(w.processes[pid], f, w.epoch, w.tables);
  }

  lemma FewerRunCovers(before: Stack, after: Stack, epoch: nat, t: Tables, t': Tables)
    requires CoversRunning(before, after, epoch, t) && RunningTasks(t') <= RunningTasks(t)
    ensures CoversRunning(before, after, epoch, t')
  {
  }

  lemma NotedLastCovers(r: Roles, ok: Condition, w: World, pid: nat, origin: Origin, note: Command)
    requires Supports(r, ok) && ok(w.tables) && HasTop(w, pid) && MayGo(w, Top(w, pid)) && note.Note?
    ensures var w' := Complete(Issue(r, w, origin, note), pid, false);
            CoversRunning(w.processes[pid], StackOf(w', pid), w.epoch, w'.tables)
  {
    var noted := Issue(r, w, origin, note);
    assert RunningTasks(noted.tables) <= RunningTasks(w.tables);
    CompleteCovers(noted, pid, false);
  }

  lemma RetryCovers(r: Roles, ok: Condition, w: World, pid: nat, f: Frame, e: Environment)
    requires Supports(r, ok) && ok(w.tables) && HasTop(w, pid) && Top(w, pid) == f
    requires f.kind == Sending && f.taskId !in RunningTasks(w.tables)
    ensures var w' := RetryTask(r, w, pid, f, e);
            CoversRunning(w.processes[pid], StackOf(w', pid), w.epoch, w'.tables)
  {
    var retry := Retry(f.taskId, r.settings.leaderId, e.ids(4));
    var retried := Issue(r, w, FromSend(f.epoch), retry);
    if !r.service.succeeds(w.tables, retry) {
      CompleteCovers(w, pid, true);
    } else {
      assert RunningTasks(retried.tables) <= RunningTasks(w.tables) && ok(retried.tables);
      NotedLastCovers(r, ok, retried, pid, FromSend(f.epoch),
          Note(e.ids(5), r.settings.leaderId, Some(f.taskId), "user.approval.requested"));
      CompleteCovers(retried, pid, true);
      PhaseCovers(retried, pid, f.(phase := Resuming));
    }
  }

  lemma FailCovers(r: Roles, ok: Condition, w: World, pid: nat, f: Frame, e: Environment)
    requires Supports(r, ok) && IsAttended(r, ok, w) && HasTop(w, pid) && Top(w, pid) == f
    requires f.kind == Sending && e.ids(3) !in LogIds(w.tables)
    ensures var w' := FailTask(r, w, pid, f, e);
            CoversRunning(w.processes[pid], StackOf(w', pid), w.epoch, w'.tables)
  {
    var fail := Failing(f.taskId, f.employee, e.ids(3));
    assert IsEmployed(r, w.processes[pid]);
    assert f.taskId in RunningTasks(w.tables) ==> r.service.succeeds(w.tables, fail);
    if r.service.succeeds(w.tables, fail) {
      RetryCovers(r, ok, Issue(r, w, FromSend(f.epoch), fail), pid, f, e);
    } else {
      CompleteCovers(w, pid, true);
    }
  }

  lemma SendTailCovers(r: Roles, ok: Condition, w: World, pid: nat, failed: bool, e: Environment)
    requires Supports(r, ok) && IsAttended(r, ok, w) && HasTop(w, pid) && Top(w, pid).kind == Sending
    requires e.ids(3) !in LogIds(w.tables) && e.ids(2) != e.ids(3)
    ensures var w' := SendTail(r, w, pid, failed, e);
            CoversRunning(w.processes[pid], StackOf(w', pid), w.epoch, w'.tables)
  {
    var f := Top(w, pid);
    if f.epoch != w.epoch || f.taskId !in RunningTasks(w.tables) {
      CompleteCovers(w, pid, true);
      CompleteCovers(w, pid, false);
    } else if failed {
      FailCovers(r, ok, w, pid, f, e);
    } else {
      var note := Note(e.ids(2), f.employee, Some(f.taskId), "task.execution_error");
      IssueStaysAttended(r, ok, w, FromSend(f.epoch), note);
      FailCovers(r, ok, Issue(r, w, FromSend(f.epoch), note), pid, f, e);
    }
  }

  lemma StepStreamCovers(r: Roles, ok: Condition, w: World, pid: nat, f: Frame, input: Input, e: Environment)
    requires Supports(r, ok) && IsAttended(r, ok, w) && IsFresh(w.tables, e) && HasTop(w, pid) && Top(w, pid) == f
             && f.kind == Sending
    ensures var w' := StepStream(r, w, pid, f, input, e);
            CoversRunning(w.processes[pid], StackOf(w', pid), w.epoch, w'.tables)
  {
    if input.StreamEnd? {
      SendTailCovers(r, ok, w, pid, false, e);
    } else if f.epoch != w.epoch && IsFromSession(input) {
      CompleteCovers(w, pid, false);
    } else if input.Proposed? {
      if input.action.taskId == Some(f.taskId) {
        CallDispatchCovers(r, w, pid, FromSend(f.epoch), input.action, input.allowed, e);
      } else {
        PhaseCovers(Record(r, w, FromSend(f.epoch), e, 0, "core", f.taskId, "action.rejected"), pid,
            f.(phase := Ended(true)));
      }
    } else if input.ErrorEvent? {
      PhaseCovers(w, pid, f.(phase := Ended(true)));
    } else if input.StreamError? {
      RecordStaysAttended(r, ok, w, FromSend(f.epoch), e, 0, f.employee, f.taskId, "task.execution_error");
      SendTailCovers(r, ok, Record(r, w, FromSend(f.epoch), e, 0, f.employee, f.taskId, "task.execution_error"), pid,
          true, e);
    }
  }

  /** A driver that waits for a new session does not drive, so nothing is lost when it ends. */
  lemma ReplacementFailsCovers(r: Roles, w: World, pid: nat, f: Frame, final: bool, e: Environment)
    requires HasTop(w, pid) && Top(w, pid) == f && f.kind == Sending && (f.phase == Resuming || f.phase == Rebuilding)
    ensures var w' := ReplacementFails(r, w, pid, f, final, e);
            CoversRunning(w.processes[pid], StackOf(w', pid), w.epoch, w'.tables)
  {
    CompleteCovers(w, pid, false);
    PhaseCovers(w, pid, f.(phase := Rebuilding));
    CompleteCovers(Record(r, w, FromSend(f.epoch), e, 0, r.settings.leaderId, f.taskId, "user.approval.requested"),
        pid, false);
  }

  lemma RestartCovers(r: Roles, w: World, pid: nat, e: Environment)
    requires HasTop(w, pid) && Top(w, pid).kind == Sending
             && (Top(w, pid).phase == Resuming || Top(w, pid).phase == Rebuilding)
    ensures var w' := RestartTask(r, w, pid, e);
            CoversRunning(w.processes[pid], StackOf(w', pid), w.epoch, w'.tables)
  {
    var f := Top(w, pid);
    var started := Issue(r, w, FromSend(f.epoch), Transition(f.taskId, Running, f.employee, e.ids(0)));
    CompleteCovers(w, pid, false);
    CompleteCovers(w, pid, true);
    CompleteCovers(Record(r, w, FromSend(f.epoch), e, 0, r.settings.leaderId, f.taskId, "user.approval.requested"),
        pid, false);
    CompleteCovers(started, pid, true);
    if HasOwner(r, started.tables, f.taskId) {
      PhaseCovers(started, pid, SendFrame(f.taskId, f.epoch, started.tables.tasks[f.taskId].owner.value));
    }
  }

  lemma ReturnedCovers(r: Roles, w: World, pid: nat, f: Frame, failed: bool, input: Input, e: Environment)
    requires HasTop(w, pid) && Top(w, pid) == f && f.kind == Sending && f.phase == Returned(failed)
    ensures var w' := StepSend(r, w, pid, input, e);
            CoversRunning(w.processes[pid], StackOf(w', pid), w.epoch, w'.tables)
  {
    if input.Continue? {
      if !failed {
        PhaseCovers(w, pid, f.(phase := Streaming));
      } else if f.epoch != w.epoch {
        CompleteCovers(w, pid, false);
      } else {
        PhaseCovers(Record(r, w, FromSend(f.epoch), e, 0, "core", f.taskId, "action.rejected"), pid,
            f.(phase := Ended(true)));
      }
    }
  }

  lemma StepSendCovers(r: Roles, ok: Condition, w: World, pid: nat, input: Input, e: Environment)
    requires Supports(r, ok) && IsAttended(r, ok, w) && IsFresh(w.tables, e) && HasTop(w, pid)
             && Top(w, pid).kind == Sending
    ensures var w' := StepSend(r, w, pid, input, e);
            CoversRunning(w.processes[pid], StackOf(w', pid), w.epoch, w'.tables)
  {
    var f := Top(w, pid);
    match f.phase
    case Streaming => StepStreamCovers(r, ok, w, pid, f, input, e);
    case Returned(failed) => ReturnedCovers(r, w, pid, f, failed, input, e);
    case Ended(failed) => SendTailCovers(r, ok, w, pid, failed, e);
    case Resuming =>
      RestartCovers(r, w, pid, e);
      ReplacementFailsCovers(r, w, pid, f, if input.ReplacementFailed? then input.cleanupFailed else true, e);
    case Rebuilding =>
      RestartCovers(r, w, pid, e);
      ReplacementFailsCovers(r, w, pid, f, true, e);
    case _ =>
  }

  lemma StepReviewCovers(r: Roles, w: World, pid: nat, input: Input, e: Environment)
    requires HasTop(w, pid) && Top(w, pid).kind == Reviewing
    ensures var w' := StepReview(r, w, pid, input, e);
            CoversRunning(w.processes[pid], StackOf(w', pid), w.epoch, w'.tables)
  {
    var f := Top(w, pid);
    var asked := Record(r, w, FromReview(f.epoch), e, 0, r.settings.leaderId, f.taskId, "user.approval.requested");
    CompleteCovers(w, pid, true);
    CompleteCovers(w, pid, false);
    CompleteCovers(asked, pid, false);
    PhaseCovers(w, pid, f.(decided := true, phase := Streaming));
    if input.Proposed? {
      CallDispatchCovers(r, w, pid, FromReview(f.epoch), input.action, input.allowed, e);
    }
  }

  lemma StepMessageCovers(r: Roles, w: World, pid: nat, input: Input, e: Environment)
    requires HasTop(w, pid) && Top(w, pid).kind == Messaging
    ensures var w' := StepMessage(r, w, pid, input, e);
            CoversRunning(w.processes[pid], StackOf(w', pid), w.epoch, w'.tables)
  {
    if input.Proposed? {
      CallDispatchCovers(r, w, pid, FromMessage, input.action, input.allowed, e);
    }
  }

  lemma StepRootCovers(r: Roles, w: World, pid: nat, input: Input, e: Environment)
    requires HasTop(w, pid) && Top(w, pid).kind !in {Sending, Reviewing, Messaging}
    ensures var w' := StepRoot(r, w, pid, input, e);
            CoversRunning(w.processes[pid], StackOf(w', pid), w.epoch, w'.tables)
  {
  }

  // The other processes.

  lemma StartReadyKeepsStack(r: Roles, w: World, origin: Origin, taskId: TaskId, actorId: EmployeeId, e: Environment,
                             pid: nat)
    ensures KeepsStack(w, StartReadyTask(r, w, origin, taskId, actorId, e).0, pid)
  {
  }

  lemma RejectKeepsStack(r: Roles, w: World, origin: Origin, taskId: TaskId, actorId: EmployeeId,
                         findings: seq<string>, e: Environment, pid: nat)
    ensures KeepsStack(w, DispatchOnTask(r, w, origin, taskId, actorId, RejectTask(findings), e).0, pid)
  {
    var rejected := Issue(r, w, origin, Reject(taskId, actorId, findings, e.ids(0)));
    if taskId in rejected.tables.tasks && rejected.tables.tasks[taskId].owner.Some? {
      StartReadyKeepsStack(r, rejected, origin, taskId, rejected.tables.tasks[taskId].owner.value, e, pid);
    }
  }

  lemma OnTaskKeepsStack(r: Roles, w: World, origin: Origin, taskId: TaskId, actorId: EmployeeId, p: Proposal,
                         e: Environment, pid: nat)
    requires !p.RequestApproval? && !p.CompleteCompany? && !p.SendMessage?
    ensures KeepsStack(w, DispatchOnTask(r, w, origin, taskId, actorId, p, e).0, pid)
  {
    match p
    case AssignTask(assignee) =>
      StartReadyKeepsStack(r, Issue(r, w, origin, Assign(taskId, assignee, e.ids(0))), origin, taskId, assignee, e,
          pid);
    case RejectTask(findings) => RejectKeepsStack(r, w, origin, taskId, actorId, findings, e, pid);
    case StartTask => StartReadyKeepsStack(r, w, origin, taskId, actorId, e, pid);
    case _ =>
  }

  lemma DispatchKeepsStack(r: Roles, w: World, origin: Origin, a: Action, allowed: bool, e: Environment, pid: nat)
    ensures KeepsStack(w, Dispatch(r, w, origin, a, allowed, e).0, pid)
  {
    var p := a.proposal;
    if !p.RequestApproval? && !p.CompleteCompany? && !p.SendMessage? && a.taskId.Some? {
      OnTaskKeepsStack(r, w, origin, a.taskId.value, a.actorId, p, e, pid);
    }
  }

  lemma CallKeepsOthers(r: Roles, w: World, pid: nat, origin: Origin, a: Action, allowed: bool, e: Environment,
                        other: nat)
    requires HasTop(w, pid) && other != pid
    ensures KeepsStack(w, CallDispatch(r, w, pid, origin, a, allowed, e), other)
  {
    DispatchKeepsStack(r, w, origin, a, allowed, e, other);
  }

  lemma RetryKeepsOthers(r: Roles, w: World, pid: nat, f: Frame, e: Environment, other: nat)
    requires HasTop(w, pid) && other != pid
    ensures KeepsStack(w, RetryTask(r, w, pid, f, e), other)
  {
  }

  lemma FailKeepsOthers(r: Roles, w: World, pid: nat, f: Frame, e: Environment, other: nat)
    requires HasTop(w, pid) && other != pid
    ensures KeepsStack(w, FailTask(r, w, pid, f, e), other)
  {
    RetryKeepsOthers(r, Issue(r, w, FromSend(f.epoch), Transition(f.taskId, Failed, f.employee, e.ids(3))), pid, f, e,
        other);
  }

  lemma TailKeepsOthers(r: Roles, w: World, pid: nat, failed: bool, e: Environment, other: nat)
    requires HasTop(w, pid) && other != pid
    ensures KeepsStack(w, SendTail(r, w, pid, failed, e), other)
  {
    var f := Top(w, pid);
    if f.epoch == w.epoch && IsIn(w.tables, f.taskId, Running) {
      var noted := if failed then w else Record(r, w, FromSend(f.epoch), e, 2, f.employee, f.taskId,
          "task.execution_error");
      assert KeepsStack(w, noted, other) && noted.nextProcess == w.nextProcess;
      FailKeepsOthers(r, noted, pid, f, e, other);
      assert SendTail(r, w, pid, failed, e) == FailTask(r, noted, pid, f, e);
    }
  }

  lemma RestartKeepsOthers(r: Roles, w: World, pid: nat, e: Environment, other: nat)
    requires HasTop(w, pid) && other != pid
    ensures KeepsStack(w, RestartTask(r, w, pid, e), other)
  {
  }

  lemma ReplacementKeepsOthers(r: Roles, w: World, pid: nat, f: Frame, final: bool, e: Environment, other: nat)
    requires HasTop(w, pid) && other != pid
    ensures KeepsStack(w, ReplacementFails(r, w, pid, f, final, e), other)
  {
  }

  lemma StreamKeepsOthers(r: Roles, w: World, pid: nat, f: Frame, input: Input, e: Environment, other: nat)
    requires HasTop(w, pid) && Top(w, pid) == f && other != pid
    ensures KeepsStack(w, StepStream(r, w, pid, f, input, e), other)
  {
    match input
    case StreamEnd => TailKeepsOthers(r, w, pid, false, e, other);
    case Proposed(action, allowed) => CallKeepsOthers(r, w, pid, FromSend(f.epoch), action, allowed, e, other);
    case StreamError =>
      TailKeepsOthers(r, Record(r, w, FromSend(f.epoch), e, 0, f.employee, f.taskId, "task.execution_error"), pid,
          true, e, other);
    case _ =>
  }

  lemma SendKeepsOthers(r: Roles, w: World, pid: nat, input: Input, e: Environment, other: nat)
    requires HasTop(w, pid) && other != pid
    ensures KeepsStack(w, StepSend(r, w, pid, input, e), other)
  {
    var f := Top(w, pid);
    match f.phase
    case Streaming => StreamKeepsOthers(r, w, pid, f, input, e, other);
    case Ended(failed) => TailKeepsOthers(r, w, pid, failed, e, other);
    case Resuming =>
      RestartKeepsOthers(r, w, pid, e, other);
      ReplacementKeepsOthers(r, w, pid, f, if input.ReplacementFailed? then input.cleanupFailed else true, e, other);
    case Rebuilding =>
      RestartKeepsOthers(r, w, pid, e, other);
      ReplacementKeepsOthers(r, w, pid, f, true, e, other);
    case _ =>
  }

  lemma ReviewKeepsOthers(r: Roles, w: World, pid: nat, input: Input, e: Environment, other: nat)
    requires HasTop(w, pid) && other != pid
    ensures KeepsStack(w, StepReview(r, w, pid, input, e), other)
  {
    if input.Proposed? {
      CallKeepsOthers(r, w, pid, FromReview(Top(w, pid).epoch), input.action, input.allowed, e, other);
    }
  }

  lemma StepKeepsOthers(r: Roles, w: World, pid: nat, input: Input, e: Environment, other: nat)
    requires HasTop(w, pid) && other != pid
    ensures KeepsStack(w, Step(r, w, pid, input, e), other)
  {
    match Top(w, pid).kind
    case Sending => SendKeepsOthers(r, w, pid, input, e, other);
    case Reviewing => ReviewKeepsOthers(r, w, pid, input, e, other);
    case Messaging =>
      if input.Proposed? {
        CallKeepsOthers(r, w, pid, FromMessage, input.action, input.allowed, e, other);
      }
    case _ =>
  }

  lemma {:induction false} RecoveryKeepsStack(r: Roles, w: World, ids: seq<TaskId>, pid: nat)
    ensures KeepsStack(w, RecoverRunning(r, w, ids), pid) && KeepsStack(w, RecoverReviews(w, ids), pid)
    decreases |ids|
  {
    if ids != [] {
      RecoveryKeepsStack(r, if ids[0] in w.inFlight then w else StartInFlight(r, w, ids[0]), ids[1..], pid);
      RecoveryKeepsStack(
        r, if ids[0] in w.inFlight then w
            else Start(w, ids[0], On(Frame(Recovery, ids[0], w.epoch, "", false, Waiting), NoFrame)), ids[1..], pid);
    }
  }

  lemma WakeCovers(r: Roles, ok: Condition, w: World, p: nat, input: Input, e: Environment, pid: nat)
    requires Supports(r, ok) && IsAttended(r, ok, w) && IsFresh(w.tables, e) && pid in w.processes && HasTop(w, p)
    ensures var w' := Step(r, w, p, input, e);
            CoversRunning(w.processes[pid], StackOf(w', pid), w.epoch, w'.tables)
  {
    if p != pid {
      StepKeepsOthers(r, w, p, input, e, pid);
    } else {
      match Top(w, pid).kind
      case Sending => StepSendCovers(r, ok, w, pid, input, e);
      case Reviewing => StepReviewCovers(r, w, pid, input, e);
      case Messaging => StepMessageCovers(r, w, pid, input, e);
      case _ => StepRootCovers(r, w, pid, input, e);
    }
  }

  lemma OutsideKeepsStack(r: Roles, w: World, stretch: Stretch, pid: nat)
    requires pid in w.processes && pid < w.nextProcess && !stretch.Wakes? && !stretch.Stops?
    ensures var w' := Apply(r, w, stretch); pid in w'.processes && w'.processes[pid] == w.processes[pid]
  {
    match stretch
    case Asked(a, allowed, e) => DispatchKeepsStack(r, StartOutside(w), FromOutside, a, allowed, e, pid);
    case Recovers(listed) =>
      var first := FirstRunning(r, w.tables, listed);
      RecoveryKeepsStack(r, w, first, pid);
      RecoveryKeepsStack(r, RecoverRunning(r, w, first), WithStatus(w.tables, listed, Review), pid);
    case _ =>
  }

  lemma ApplyCovers(r: Roles, ok: Condition, w: World, stretch: Stretch, pid: nat)
    requires Supports(r, ok) && IsAttended(r, ok, w) && IsFreshFor(w.tables, stretch) && pid in w.processes
             && !stretch.Stops?
    ensures var w' := Apply(r, w, stretch);
            CoversRunning(w.processes[pid], StackOf(w', pid), w.epoch, w'.tables)
  {
    if stretch.Wakes? {
      if HasTop(w, stretch.pid) {
        WakeCovers(r, ok, w, stretch.pid, stretch.input, stretch.environment, pid);
      }
    } else {
      OutsideKeepsStack(r, w, stretch, pid);
    }
  }

  /** In every reachable world, a process that drives a task in the current epoch goes
      on driving it over any stretch, unless the task does not run any more or a stop
      outdates the driver. */
  lemma DriverStaysWithItsTask(r: Roles, run: seq<Stretch>, stretch: Stretch, pid: nat, id: TaskId)
    requires r.service == TaskServiceOf(r.settings) && RunIsFresh(r, INITIAL, run)
    requires IsFreshFor(Orchestrator.After(r, INITIAL, run).tables, stretch)
    requires var w := Orchestrator.After(r, INITIAL, run); pid in w.processes && Drives(w.processes[pid], w.epoch, id)
    ensures var w' := Apply(r, Orchestrator.After(r, INITIAL, run), stretch);
            || stretch.Stops? || id !in RunningTasks(w'.tables)
            || (pid in w'.processes && Drives(w'.processes[pid], Orchestrator.After(r, INITIAL, run).epoch, id))
  {
    var ok := (t: Tables) => TasksAreFine(r, t) && StoredCanBePut(t);
    ServiceSupports(r);
    EmptyStoreIsFine(r.settings);
    RunStaysAttended(r, ok, INITIAL, run);
    if !stretch.Stops? {
      ApplyCovers(r, ok, Orchestrator.After(r, INITIAL, run), stretch, pid);
    }
  }

  // Recovery.

  lemma {:induction false} WithStatusSelects(t: Tables, listed: seq<TaskId>, status: TaskStatus, id: TaskId)
    ensures id in WithStatus(t, listed, status) <==> id in listed && IsIn(t, id, status)
  {
    if listed != [] {
      assert listed == [listed[0]] + listed[1..];
      WithStatusSelects(t, listed[1..], status, id);
    }
  }

  lemma {:induction false} RunningAreCounted(t: Tables, listed: seq<TaskId>, among: set<TaskId>)
    requires Distinct(listed) && forall id :: id in listed && id in RunningTasks(t) ==> id in among
    ensures |WithStatus(t, listed, Running)| <= |among|
  {
    if listed != [] {
      assert listed == [listed[0]] + listed[1..];
      if IsIn(t, listed[0], Running) {
        RunningAreCounted(t, listed[1..], among - {listed[0]});
      } else {
        RunningAreCounted(t, listed[1..], among);
      }
    }
  }

  lemma StartDrivesExactly(r: Roles, w: World, taskId: TaskId, id: TaskId)
    requires w.nextProcess !in w.processes
    ensures IsDriven(StartInFlight(r, w, taskId).processes, w.epoch, id) <==>
            IsDriven(w.processes, w.epoch, id) || (id == taskId && HasOwner(r, w.tables, taskId))
  {
    var processes := StartInFlight(r, w, taskId).processes;
    assert !Drives(NoFrame, w.epoch, id);
    assert Drives(processes[w.nextProcess], w.epoch, id) <==> id == taskId && HasOwner(r, w.tables, taskId);
    if p :| p in w.processes && Drives(w.processes[p], w.epoch, id) {
      assert Drives(processes[p], w.epoch, id);
    }
  }

  lemma ReviewDrivesNothing(w: World, taskId: TaskId, id: TaskId)
    requires w.nextProcess !in w.processes
    ensures var w' := Start(w, taskId, On(Frame(Recovery, taskId, w.epoch, "", false, Waiting), NoFrame));
            IsDriven(w'.processes, w.epoch, id) <==> IsDriven(w.processes, w.epoch, id)
  {
    var processes := Start(w, taskId, On(Frame(Recovery, taskId, w.epoch, "", false, Waiting), NoFrame)).processes;
    assert !Drives(NoFrame, w.epoch, id) && !Drives(processes[w.nextProcess], w.epoch, id);
    if p :| p in w.processes && Drives(w.processes[p], w.epoch, id) {
      assert Drives(processes[p], w.epoch, id);
    }
  }

  ghost predicate HasRoom(w: World) {
    forall pid :: pid in w.processes ==> pid < w.nextProcess
  }

  lemma {:induction false} RecoverRunningDrivesExactly(r: Roles, w: World, ids: seq<TaskId>, id: TaskId)
    requires HasRoom(w) && HasOwner(r, w.tables, id)
    ensures var w' := RecoverRunning(r, w, ids);
            && HasRoom(w') && w'.epoch == w.epoch
            && (IsDriven(w'.processes, w.epoch, id) <==>
                 IsDriven(w.processes, w.epoch, id) || (id in ids && id !in w.inFlight))
    decreases |ids|
  {
    if ids != [] {
      assert ids == [ids[0]] + ids[1..];
      StartDrivesExactly(r, w, ids[0], id);
      RecoverRunningDrivesExactly(r, if ids[0] in w.inFlight then w else StartInFlight(r, w, ids[0]), ids[1..], id);
    }
  }

  lemma {:induction false} RecoverReviewsDrivesNothing(w: World, ids: seq<TaskId>, id: TaskId)
    requires HasRoom(w)
    ensures IsDriven(RecoverReviews(w, ids).processes, w.epoch, id) <==> IsDriven(w.processes, w.epoch, id)
    decreases |ids|
  {
    if ids != [] {
      ReviewDrivesNothing(w, ids[0], id);
      RecoverReviewsDrivesNothing(
        if ids[0] in w.inFlight then w
            else Start(w, ids[0], On(Frame(Recovery, ids[0], w.epoch, "", false, Waiting), NoFrame)), ids[1..], id);
    }
  }

  lemma RecoverWorkDrivesExactly(r: Roles, w: World, listed: seq<TaskId>, id: TaskId)
    requires HasRoom(w) && HasOwner(r, w.tables, id) && id in FirstRunning(r, w.tables, listed)
    ensures IsDriven(RecoverWork(r, w, listed).processes, w.epoch, id) <==>
              IsDriven(w.processes, w.epoch, id) || id !in w.inFlight
  {
    var first := FirstRunning(r, w.tables, listed);
    RecoverRunningDrivesExactly(r, w, first, id);
    RecoverReviewsDrivesNothing(RecoverRunning(r, w, first), WithStatus(w.tables, listed, Review), id);
  }

  lemma RunIsSound(r: Roles, run: seq<Stretch>, id: TaskId)
    requires r.service == TaskServiceOf(r.settings) && RunIsFresh(r, INITIAL, run)
    ensures var w := Orchestrator.After(r, INITIAL, run);
            && HasRoom(w) && |RunningTasks(w.tables)| <= r.settings.company.limits.maxParallelTasks
            && (id in RunningTasks(w.tables) ==> HasOwner(r, w.tables, id))
  {
    ServiceSupports(r);
    EmptyStoreIsFine(r.settings);
    RunStaysAttended(r, (t: Tables) => TasksAreFine(r, t) && StoredCanBePut(t), INITIAL, run);
  }

  /** Recovery gives a running task a driver of the current epoch exactly if nothing
      is in flight for it, or it had one. So when everything has come to rest, no
      running task is left behind; an outdated driver that lingers keeps its task
      from getting a new one. */
  lemma RecoveryDrivesExactly(r: Roles, run: seq<Stretch>, listed: seq<TaskId>, id: TaskId)
    requires r.service == TaskServiceOf(r.settings) && RunIsFresh(r, INITIAL, run)
    requires Distinct(listed) && forall known ::
               known in listed <==> known in Orchestrator.After(r, INITIAL, run).tables.tasks
    requires id in RunningTasks(Orchestrator.After(r, INITIAL, run).tables)
    ensures var w := Orchestrator.After(r, INITIAL, run);
            IsDriven(RecoverWork(r, w, listed).processes, w.epoch, id) <==>
                IsDriven(w.processes, w.epoch, id) || id !in w.inFlight
  {
    var w := Orchestrator.After(r, INITIAL, run);
    RunIsSound(r, run, id);
    WithStatusSelects(w.tables, listed, Running, id);
    RunningAreCounted(w.tables, listed, RunningTasks(w.tables));
    RecoverWorkDrivesExactly(r, w, listed, id);
  }

  /** The continuation that recovery starts for a review, before its turn has come. */
  predicate WaitsToReview(stack: Stack, epoch: nat, id: TaskId) {
    && stack.On? && stack.below.NoFrame?
    && stack.top.kind == Recovery && stack.top.phase == Waiting
    && stack.top.taskId == id && stack.top.epoch == epoch
  }

  /** The processes that wait to review a task in the current epoch. */
  function WaitingReviews(w: World, id: TaskId): set<nat> {
    set pid | pid in w.processes && WaitsToReview(w.processes[pid], w.epoch, id)
  }

  /** What was under way or in flight before still is, and new processes are new. */
  ghost predicate OnlyAddsProcesses(w: World, w': World) {
    && HasRoom(w') && w'.epoch == w.epoch && w.nextProcess <= w'.nextProcess
    && (forall pid :: pid in w.processes ==> pid in w'.processes && w'.processes[pid] == w.processes[pid])
    && (forall id :: id in w.inFlight ==> id in w'.inFlight && w'.inFlight[id] == w.inFlight[id])
  }

  lemma {:induction false} RecoverRunningAddsNoReview(r: Roles, w: World, ids: seq<TaskId>, id: TaskId)
    requires HasRoom(w)
    ensures var w' := RecoverRunning(r, w, ids);
            && OnlyAddsProcesses(w, w')
            && (id in w'.inFlight ==> id in w.inFlight || id in ids)
            && WaitingReviews(w', id) == WaitingReviews(w, id)
    decreases |ids|
  {
    if ids != [] {
      RecoverRunningAddsNoReview(r, if ids[0] in w.inFlight then w else StartInFlight(r, w, ids[0]), ids[1..], id);
    }
  }

  lemma {:induction false} RecoverReviewsAddsExactly(w: World, ids: seq<TaskId>, id: TaskId)
    requires HasRoom(w)
    ensures var w' := RecoverReviews(w, ids);
            && OnlyAddsProcesses(w, w')
            && (id in w'.inFlight <==> id in w.inFlight || id in ids)
            && (id in w'.inFlight && id !in w.inFlight ==> w.nextProcess <= w'.inFlight[id])
            && WaitingReviews(w', id) == WaitingReviews(w, id)
                 + (if id in ids && id !in w.inFlight then {w'.inFlight[id]} else {})
    decreases |ids|
  {
    if ids != [] {
      var root := On(Frame(Recovery, ids[0], w.epoch, "", false, Waiting), NoFrame);
      var next := if ids[0] in w.inFlight then w else Start(w, ids[0], root);
      assert ids == [ids[0]] + ids[1..];
      RecoverReviewsAddsExactly(next, ids[1..], id);
      assert WaitingReviews(next, id) == WaitingReviews(w, id) + if id == ids[0] && id !in w.inFlight
          then {w.nextProcess} else {};
    }
  }

  lemma OnlyAddsOverTwo(w: World, between: World, w': World)
    requires OnlyAddsProcesses(w, between) && OnlyAddsProcesses(between, w')
    ensures OnlyAddsProcesses(w, w')
  {
  }

  /** After recovery every task in review is in flight. One new continuation waits
      to review it in the current epoch exactly if nothing was in flight for it
      before; no other task gets one, and what was under way goes on. */
  lemma RecoveryReviewsExactly(r: Roles, run: seq<Stretch>, listed: seq<TaskId>, id: TaskId)
    requires r.service == TaskServiceOf(r.settings) && RunIsFresh(r, INITIAL, run)
    ensures var w := Orchestrator.After(r, INITIAL, run);
            var w' := RecoverWork(r, w, listed);
            var isInReview := id in listed && id in w.tables.tasks && w.tables.tasks[id].status == Review;
            && OnlyAddsProcesses(w, w')
            && (isInReview ==> id in w'.inFlight)
            && if isInReview && id !in w.inFlight
               then w'.inFlight[id] !in w.processes
                   && WaitingReviews(w', id) == WaitingReviews(w, id) + {w'.inFlight[id]}
               else WaitingReviews(w', id) == WaitingReviews(w, id)
  {
    var w := Orchestrator.After(r, INITIAL, run);
    RunIsSound(r, run, id);
    var first, reviews := FirstRunning(r, w.tables, listed), WithStatus(w.tables, listed, Review);
    var between := RecoverRunning(r, w, first);
    WithStatusSelects(w.tables, listed, Running, id);
    WithStatusSelects(w.tables, listed, Review, id);
    RecoverRunningAddsNoReview(r, w, first, id);
    RecoverReviewsAddsExactly(between, reviews, id);
    OnlyAddsOverTwo(w, between, RecoverReviews(between, reviews));
    assert RecoverWork(r, w, listed) == RecoverReviews(between, reviews);
  }

  // A run in which recovery leaves a task behind.

  lemma Then(r: Roles, run: seq<Stretch>, stretch: Stretch) returns (more: seq<Stretch>)
    ensures more == run + [stretch]
    ensures Orchestrator.After(r, INITIAL, more) == Apply(r, Orchestrator.After(r, INITIAL, run), stretch)
    ensures RunIsFresh(r, INITIAL, run) && !stretch.Wakes? ==> RunIsFresh(r, INITIAL, more)
  {
    more := run + [stretch];
    assert more[..|run|] == run;
  }

  /** The run that has two commands issued, for any service. */
  lemma TwoAreCommanded(r: Roles, c: Command, d: Command) returns (run: seq<Stretch>)
    requires !IsStart(c) && !IsStart(d)
    ensures RunIsFresh(r, INITIAL, run)
    ensures var w := Orchestrator.After(r, INITIAL, run);
            w == INITIAL.(accepting := true, tables := r.service.perform(r.service.perform(EMPTY, c), d),
                issued := w.issued)
  {
    run := Then(r, [], Resumes);
    run := Then(r, run, Commanded(c));
    run := Then(r, run, Commanded(d));
  }

  lemma LoneTaskIsReady(r: Roles, id: TaskId, worker: EmployeeId) returns (run: seq<Stretch>)
    requires r.service == TaskServiceOf(r.settings) && IsWorker(r.settings, worker)
    ensures var w := Orchestrator.After(r, INITIAL, run);
            && w == INITIAL.(accepting := true, tables := w.tables, issued := w.issued)
            && IsLoneTask(w.tables, id, worker, Ready, {"a", "b"})
    ensures RunIsFresh(r, INITIAL, run)
  {
    var propose, assign := Propose(id, "", "", [], [], "a"), Assign(id, worker, "b");
    LoneTaskIsAssigned(r.settings, id, worker);
    assert r.service.perform(r.service.perform(EMPTY, propose), assign) ==
        Perform(r.settings, Perform(r.settings, EMPTY, propose), assign);
    run := TwoAreCommanded(r, propose, assign);
  }

  function LoneEnvironment(): Environment {
    Environment(n => "c", true)
  }

  /** The driver of a started lone task, on the promise that started it. */
  function LoneDriver(id: TaskId, worker: EmployeeId): Stack {
    On(SendFrame(id, 0, worker), On(Frame(InFlight, id, 0, "", false, Calling), NoFrame))
  }

  lemma LoneTaskCanStart(r: Roles, w: World, id: TaskId, worker: EmployeeId)
    requires r.service == TaskServiceOf(r.settings) && IsWorker(r.settings, worker)
             && 0 < r.settings.company.limits.maxParallelTasks
    requires IsLoneTask(w.tables, id, worker, Ready, {"a", "b"}) && w.epoch == 0
    ensures var (w', failed) := StartReadyTask(r, w, FromOutside, id, worker, LoneEnvironment());
            && !failed && IsLoneTask(w'.tables, id, worker, Running, {"a", "b"} + {"c"})
            && w' == Start(w, id, LoneDriver(id, worker)).(tables := w'.tables, issued := w'.issued)
  {
    var e := LoneEnvironment();
    LoneTaskMoves(r.settings, w.tables, id, worker, Transition(id, Running, worker, e.ids(1)), {"a", "b"});
    assert RunningTasks(w.tables) == {};
  }

  lemma LoneStartIsDispatched(r: Roles, w: World, id: TaskId, worker: EmployeeId)
    requires w.accepting && id in w.tables.tasks && w.tables.tasks[id].owner == Some(worker)
    ensures Dispatch(r, w, FromOutside, Action(Some(id), worker, StartTask), true, LoneEnvironment()) ==
            Finished(StartReadyTask(r, w, FromOutside, id, worker, LoneEnvironment()))
  {
  }

  lemma AskedIsDone(r: Roles, w: World, a: Action, e: Environment, done: World)
    requires Dispatch(r, StartOutside(w), FromOutside, a, true, e) == (done, Dispatched.Done)
    ensures Apply(r, w, Asked(a, true, e)) ==
            done.(processes := done.processes[w.nextProcess :=
                On(Frame(Outside, "", w.epoch, "", false, Returned(false)), NoFrame)])
  {
  }

  lemma LoneDriverIsOutdated(id: TaskId, worker: EmployeeId, epoch: nat, other: TaskId)
    requires 0 < epoch
    ensures !Drives(LoneDriver(id, worker), epoch, other)
  {
    assert !Drives(LoneDriver(id, worker).below, epoch, other);
  }

  /** The worker starts the task: its driver is process 1. */
  lemma LoneTaskIsStarted(r: Roles, w: World, id: TaskId, worker: EmployeeId)
    requires r.service == TaskServiceOf(r.settings) && IsWorker(r.settings, worker)
             && 0 < r.settings.company.limits.maxParallelTasks
    requires w == INITIAL.(accepting := true, tables := w.tables, issued := w.issued)
    requires IsLoneTask(w.tables, id, worker, Ready, {"a", "b"})
    ensures var w' := Apply(r, w, Asked(Action(Some(id), worker, StartTask), true, LoneEnvironment()));
            && IsLoneTask(w'.tables, id, worker, Running, {"a", "b"} + {"c"})
            && w'.inFlight == map[id := 1] && w'.epoch == 0 && w'.accepting
            && w'.processes == map[0 := On(Frame(Outside, "", 0, "", false, Returned(false)), NoFrame),
                 1 := LoneDriver(id, worker)]
  {
    var asked := StartOutside(w);
    var (started, failed) := StartReadyTask(r, asked, FromOutside, id, worker, LoneEnvironment());
    LoneTaskCanStart(r, asked, id, worker);
    LoneStartIsDispatched(r, asked, id, worker);
    AskedIsDone(r, w, Action(Some(id), worker, StartTask), LoneEnvironment(), started);
  }

  ghost predicate IsLeftBehind(w: World, id: TaskId) {
    w.accepting && id in RunningTasks(w.tables) && w.tables.tasks.Keys == {id} && id in w.inFlight
        && !IsDriven(w.processes, w.epoch, id)
  }

  lemma LoneTaskIsLeftBehind(r: Roles, id: TaskId, worker: EmployeeId) returns (run: seq<Stretch>)
    requires r.service == TaskServiceOf(r.settings) && IsWorker(r.settings, worker)
             && 0 < r.settings.company.limits.maxParallelTasks
    ensures RunIsFresh(r, INITIAL, run) && IsLeftBehind(Orchestrator.After(r, INITIAL, run), id)
  {
    run := LoneTaskIsReady(r, id, worker);
    LoneTaskIsStarted(r, Orchestrator.After(r, INITIAL, run), id, worker);
    run := Then(r, run, Asked(Action(Some(id), worker, StartTask), true, LoneEnvironment()));
    run := Then(r, run, Stops);
    run := Then(r, run, Resumes);
    var w := Orchestrator.After(r, INITIAL, run);
    assert !Drives(w.processes[0], w.epoch, id);
    LoneDriverIsOutdated(id, worker, w.epoch, id);
  }

  /** After a stop and a resumption the outdated driver is still in flight, and
      recovery gives the running task no other one. */
  lemma RecoveryLeavesATaskBehind(r: Roles, id: TaskId, worker: EmployeeId) returns (run: seq<Stretch>)
    requires r.service == TaskServiceOf(r.settings) && IsWorker(r.settings, worker)
             && 0 < r.settings.company.limits.maxParallelTasks
    ensures RunIsFresh(r, INITIAL, run) && IsLeftBehind(Orchestrator.After(r, INITIAL, run), id)
    ensures var w := Orchestrator.After(r, INITIAL, run); !IsDriven(RecoverWork(r, w, [id]).processes, w.epoch, id)
  {
    run := LoneTaskIsLeftBehind(r, id, worker);
    RecoveryDrivesExactly(r, run, [id], id);
  }
}
