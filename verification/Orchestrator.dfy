/**
 The orchestrator: continuations that drive tasks and reviews, a fence that
 outdates them, and the limit on tasks that run in parallel. Every step is one
 stretch between two awaits of one continuation.
 */
module Orchestrator {
  import opened Company
  import opened TaskGraph
  import opened TaskModel
  import opened TaskRuns
  import opened Wrappers

  datatype Proposal =
    | ProposeTask(title: string, objective: string, dependencies: seq<TaskId>, criteria: seq<string>)
    | AssignTask(assignee: EmployeeId)
    | SubmitTask(artifacts: seq<string>, evidence: seq<string>)
    | ApproveTask
    | RejectTask(findings: seq<string>)
    | StartTask
    | RequestReview
    | BlockTask
    | SendMessage(recipient: EmployeeId)
    | RequestApproval(reason: string)
    | CompleteCompany(reason: string)

  datatype Action = Action(taskId: Option<TaskId>, actorId: EmployeeId, proposal: Proposal)

  /** Whose continuation writes, and the epoch it captured. */
  datatype Origin = FromSend(epoch: nat) | FromReview(epoch: nat) | FromMessage | FromOutside

  /** A command issued by `origin` while the epoch was `at`. */
  datatype Issued = Issued(origin: Origin, at: nat, command: Command)

  /** The async functions: `sendTask`, `requestReview`, the routing of employee
      messages, and the chains of promises that start them. */
  datatype Kind = Sending | Reviewing | Messaging | InFlight | Recovery | Outside

  datatype Phase =
    | Waiting  // for its turn
    | Streaming  // for the next session event
    | Calling  // for the frame above
    | Returned(failed: bool)  // the frame above is done
    | Ended(failed: bool)  // the event stream is being closed
    | Resuming
    | Rebuilding

  datatype Frame = Frame(kind: Kind, taskId: TaskId, epoch: nat, employee: EmployeeId, decided: bool, phase: Phase)

  /** A continuation with those that wait for it below. */
  datatype Stack = NoFrame | On(top: Frame, below: Stack)

  datatype World = World(
    tables: Tables, epoch: nat, accepting: bool, processes: map<nat, Stack>, nextProcess: nat,
    inFlight: map<TaskId, nat>, issued: seq<Issued>)

  /** What the await of a continuation yields. */
  datatype Input =
    | Proposed(action: Action, allowed: bool)  // `allowed` is the verdict of the action policy
    | OtherEvent
    | ErrorEvent
    | StreamEnd
    | StreamError
    | Continue
    | Replaced
    | ReplacementFailed(cleanupFailed: bool)

  /** New event ids, and whether the session manager knows a session of the owner. */
  datatype Environment = Environment(ids: nat -> EventId, hasSession: bool)

  /** The task service, as the orchestrator sees it. */
  datatype Service = Service(succeeds: (Tables, Command) -> bool, perform: (Tables, Command) -> Tables)

  datatype Roles = Roles(settings: Settings, reviewerId: EmployeeId, service: Service)

  ghost function TaskServiceOf(s: Settings): Service {
    Service((t, c: Command) => !c.Note? && Settle(t, Decide(s, t, c)).0.Written?, (t, c) => Perform(s, t, c))
  }

  // Task writes.

  predicate IsStart(c: Command) {
    c.Transition? && c.next == Running
  }

  function Issue(r: Roles, w: World, origin: Origin, c: Command): World {
    w.(tables := r.service.perform(w.tables, c), issued := w.issued + [Issued(origin, w.epoch, c)])
  }

  function Record(r: Roles, w: World, origin: Origin, e: Environment, n: nat, actorId: EmployeeId, taskId: TaskId,
                  kind: string): World {
    Issue(r, w, origin, Note(e.ids(n), actorId, Some(taskId), kind))
  }

  function RunningTasks(t: Tables): set<TaskId> {
    set id | id in t.tasks && t.tasks[id].status == Running
  }

  predicate HasCapacity(r: Roles, t: Tables) {
    |RunningTasks(t)| < r.settings.company.limits.maxParallelTasks
  }

  predicate IsIn(t: Tables, taskId: TaskId, status: TaskStatus) {
    taskId in t.tasks && t.tasks[taskId].status == status
  }

  // Continuations.

  predicate HasTop(w: World, pid: nat) {
    pid in w.processes && w.processes[pid].On?
  }

  function Top(w: World, pid: nat): Frame
    requires HasTop(w, pid)
  {
    w.processes[pid].top
  }

  function SetTop(w: World, pid: nat, frame: Frame): World
    requires HasTop(w, pid)
  {
    w.(processes := w.processes[pid := On(frame, w.processes[pid].below)])
  }

  function SetPhase(w: World, pid: nat, phase: Phase): World
    requires HasTop(w, pid)
  {
    SetTop(w, pid, Top(w, pid).(phase := phase))
  }

  /** The continuation on top is done; the one below goes on. */
  function Complete(w: World, pid: nat, failed: bool): World
    requires HasTop(w, pid)
  {
    match w.processes[pid].below
    case NoFrame => w.(processes := w.processes - {pid})
    case On(caller, below) => w.(processes := w.processes[pid := On(caller.(phase := Returned(failed)), below)])
  }

  function Call(w: World, pid: nat, callee: Frame): World
    requires HasTop(w, pid)
  {
    w.(processes := w.processes[pid := On(callee, On(Top(w, pid).(phase := Calling), w.processes[pid].below))])
  }

  function Start(w: World, taskId: TaskId, stack: Stack): World {
    w.(processes := w.processes[w.nextProcess := stack], nextProcess := w.nextProcess + 1,
       inFlight := w.inFlight[taskId := w.nextProcess])
  }

  function SendFrame(taskId: TaskId, epoch: nat, employee: EmployeeId): Frame {
    Frame(Sending, taskId, epoch, employee, false, Streaming)
  }

  /** `#startInFlight`: `sendTask` runs up to its first await. */
  function StartInFlight(r: Roles, w: World, taskId: TaskId): World {
    var root := Frame(InFlight, taskId, w.epoch, "", false, Calling);
    if HasOwner(r, w.tables, taskId) then
      Start(w, taskId, On(SendFrame(taskId, w.epoch, w.tables.tasks[taskId].owner.value), On(root, NoFrame)))
    else Start(w, taskId, On(root.(phase := Returned(true)), NoFrame))
  }

  predicate HasOwner(r: Roles, t: Tables, taskId: TaskId) {
    && taskId in t.tasks && t.tasks[taskId].owner.Some?
    && IsEmployee(r.settings.company.employees, t.tasks[taskId].owner.value)
  }

  /** `#startReadyTask`; `failed` when the transition throws. */
  function StartReadyTask(r: Roles, w: World, origin: Origin, taskId: TaskId, actorId: EmployeeId,
                          e: Environment): (result: (World, bool)) {
    var start := Transition(taskId, Running, actorId, e.ids(1));
    if !HasCapacity(r, w.tables) then
      (Record(r, w, origin, e, 1, r.settings.leaderId, taskId, "user.approval.requested"), false)
    else if !r.service.succeeds(w.tables, start) then (w, true)
    else (StartInFlight(r, Issue(r, w, origin, start), taskId), false)
  }

  /** How a dispatched action goes on: it is done, or it waits for another continuation. */
  datatype Dispatched = Threw | Done | Awaits(frame: Frame)

  function ReviewCall(r: Roles, w: World, taskId: TaskId): Dispatched {
    if IsEmployee(r.settings.company.employees, r.reviewerId)
        then Awaits(Frame(Reviewing, taskId, w.epoch, r.reviewerId, false, Streaming))
    else Threw
  }

  /** `dispatch`, up to its first await. */
  function Dispatch(r: Roles, w: World, origin: Origin, a: Action, allowed: bool, e: Environment): (World, Dispatched) {
    var s, p := r.settings, a.proposal;
    if !allowed || !w.accepting then (w, Threw)
    else if p.RequestApproval? then
      (Issue(r, w, origin, Note(e.ids(0), a.actorId, a.taskId, "user.approval.requested")), Done)
    else if p.CompleteCompany? then
      (Issue(r, w, origin, Note(e.ids(0), a.actorId, a.taskId, "company.completion_requested")), Done)
    else if p.SendMessage? then
      if !IsEmployee(s.company.employees, p.recipient) then (w, Threw)
      else (Issue(r, w, origin, Note(e.ids(0), a.actorId, a.taskId, "employee.message_sent")),
            Awaits(Frame(Messaging, "", w.epoch, p.recipient, false, Streaming)))
    else if a.taskId == None then (w, Threw)
    else DispatchOnTask(r, w, origin, a.taskId.value, a.actorId, p, e)
  }

  function DispatchOnTask(r: Roles, w: World, origin: Origin, taskId: TaskId, actorId: EmployeeId, p: Proposal,
                          e: Environment): (World, Dispatched)
    requires !p.RequestApproval? && !p.CompleteCompany? && !p.SendMessage?
  {
    var s := r.settings;
    match p
    case ProposeTask(title, objective, dependencies, criteria) =>
      Direct(r, w, origin, Propose(taskId, title, objective, dependencies, criteria, e.ids(0)))
    case ApproveTask => Direct(r, w, origin, Transition(taskId, Completed, actorId, e.ids(0)))
    case BlockTask => Direct(r, w, origin, Transition(taskId, Blocked, actorId, e.ids(0)))
    case AssignTask(assignee) =>
      var assign := Assign(taskId, assignee, e.ids(0));
      if !r.service.succeeds(w.tables, assign) then (w, Threw)
      else Finished(StartReadyTask(r, Issue(r, w, origin, assign), origin, taskId, assignee, e))
    case SubmitTask(artifacts, evidence) =>
      var submit := Submit(taskId, actorId, artifacts, evidence, e.ids(0), e.ids(1));
      if !r.service.succeeds(w.tables, submit) then (w, Threw)
      else (Issue(r, w, origin, submit), ReviewCall(r, w, taskId))
    case RejectTask(findings) =>
      var reject := Reject(taskId, actorId, findings, e.ids(0));
      if !r.service.succeeds(w.tables, reject) then (w, Threw)
      else
        var rejected := Issue(r, w, origin, reject);
        if IsIn(rejected.tables, taskId, Blocked) then
          (Record(r, rejected, origin, e, 1, s.leaderId, taskId, "user.approval.requested"), Done)
        else if taskId !in rejected.tables.tasks || rejected.tables.tasks[taskId].owner == None then (rejected, Threw)
        else Finished(StartReadyTask(r, rejected, origin, taskId, rejected.tables.tasks[taskId].owner.value, e))
    case StartTask =>
      if taskId !in w.tables.tasks || w.tables.tasks[taskId].owner != Some(actorId) then (w, Threw)
      else Finished(StartReadyTask(r, w, origin, taskId, actorId, e))
    case RequestReview => (w, ReviewCall(r, w, taskId))
  }

  function Direct(r: Roles, w: World, origin: Origin, c: Command): (World, Dispatched) {
    if r.service.succeeds(w.tables, c) then (Issue(r, w, origin, c), Done) else (w, Threw)
  }

  function Finished(result: (World, bool)): (World, Dispatched) {
    (result.0, if result.1 then Threw else Done)
  }

  /** A continuation dispatches a proposed action and awaits it. */
  function CallDispatch(r: Roles, w: World, pid: nat, origin: Origin, a: Action, allowed: bool, e: Environment): World
    requires HasTop(w, pid)
  {
    var (w', dispatched) := Dispatch(r, w, origin, a, allowed, e);
    var f, below := Top(w, pid), w.processes[pid].below;
    var stack := match dispatched
      case Threw => On(f.(phase := Returned(true)), below)
      case Done => On(f.(phase := Returned(false)), below)
      case Awaits(callee) => On(callee, On(f.(phase := Calling), below));
    w'.(processes := w'.processes[pid := stack])
  }

  // `sendTask`.

  /** After the event stream: a task that still runs has failed, and is retried. */
  function SendTail(r: Roles, w: World, pid: nat, failed: bool, e: Environment): World
    requires HasTop(w, pid)
  {
    var f := Top(w, pid);
    var origin := FromSend(f.epoch);
    if f.epoch != w.epoch then Complete(w, pid, false)
    else if f.taskId !in w.tables.tasks then Complete(w, pid, true)
    else if w.tables.tasks[f.taskId].status != Running then Complete(w, pid, false)
    else FailTask(r, if failed then w
        else Record(r, w, origin, e, 2, f.employee, f.taskId, "task.execution_error"), pid, f, e)
  }

  function FailTask(r: Roles, w: World, pid: nat, f: Frame, e: Environment): World
    requires HasTop(w, pid)
  {
    var fail := Transition(f.taskId, Failed, f.employee, e.ids(3));
    if !r.service.succeeds(w.tables, fail) then Complete(w, pid, true)
    else RetryTask(r, Issue(r, w, FromSend(f.epoch), fail), pid, f, e)
  }

  function RetryTask(r: Roles, w: World, pid: nat, f: Frame, e: Environment): World
    requires HasTop(w, pid)
  {
    var origin := FromSend(f.epoch);
    var retry := Retry(f.taskId, r.settings.leaderId, e.ids(4));
    if !r.service.succeeds(w.tables, retry) then Complete(w, pid, true)
    else
      var retried := Issue(r, w, origin, retry);
      if IsIn(retried.tables, f.taskId, Blocked) || !HasCapacity(r, retried.tables) then
        Complete(Record(r, retried, origin, e, 5, r.settings.leaderId, f.taskId, "user.approval.requested"), pid, false)
      else if !e.hasSession then Complete(retried, pid, true)
      else SetPhase(retried, pid, Resuming)
  }

  /** A replaced session: the task runs again, if there is room for it now. */
  function RestartTask(r: Roles, w: World, pid: nat, e: Environment): World
    requires HasTop(w, pid)
  {
    var f := Top(w, pid);
    var origin := FromSend(f.epoch);
    var start := Transition(f.taskId, Running, f.employee, e.ids(0));
    if f.epoch != w.epoch then Complete(w, pid, false)
    else if !HasCapacity(r, w.tables) then
      Complete(Record(r, w, origin, e, 0, r.settings.leaderId, f.taskId, "user.approval.requested"), pid, false)
    else if !r.service.succeeds(w.tables, start) then Complete(w, pid, true)
    else
      var started := Issue(r, w, origin, start);
      if !HasOwner(r, started.tables, f.taskId) then Complete(started, pid, true)
      else SetTop(started, pid, SendFrame(f.taskId, f.epoch, started.tables.tasks[f.taskId].owner.value))
  }

  predicate IsFromSession(input: Input) {
    input.Proposed? || input.OtherEvent? || input.ErrorEvent? || input.StreamError?
  }

  /** An event of the session, or the end of its stream. */
  function StepStream(r: Roles, w: World, pid: nat, f: Frame, input: Input, e: Environment): World
    requires HasTop(w, pid)
  {
    var origin := FromSend(f.epoch);
    if input.StreamEnd? then SendTail(r, w, pid, false, e)
    else if f.epoch != w.epoch && IsFromSession(input) then Complete(w, pid, false)
    else match input
      case Proposed(action, allowed) =>
        if action.taskId != Some(f.taskId) then
          SetPhase(Record(r, w, origin, e, 0, "core", f.taskId, "action.rejected"), pid, Ended(true))
        else CallDispatch(r, w, pid, origin, action, allowed, e)
      case ErrorEvent => SetPhase(w, pid, Ended(true))
      case StreamError => SendTail(r, Record(r, w, origin, e, 0, f.employee, f.taskId, "task.execution_error"), pid,
          true, e)
      case _ => w
  }

  /** A session could not be resumed, or not be rebuilt. */
  function ReplacementFails(r: Roles, w: World, pid: nat, f: Frame, final: bool, e: Environment): World
    requires HasTop(w, pid)
  {
    if f.epoch != w.epoch then Complete(w, pid, false)
    else if !final then SetPhase(w, pid, Rebuilding)
    else Complete(Record(r, w, FromSend(f.epoch), e, 0, r.settings.leaderId, f.taskId, "user.approval.requested"),
        pid, false)
  }

  function StepSend(r: Roles, w: World, pid: nat, input: Input, e: Environment): World
    requires HasTop(w, pid)
  {
    var f := Top(w, pid);
    match (f.phase, input)
    case (Streaming, _) => StepStream(r, w, pid, f, input, e)
    case (Returned(failed), Continue) =>
      if !failed then SetPhase(w, pid, Streaming)
      else if f.epoch != w.epoch then Complete(w, pid, false)
      else SetPhase(Record(r, w, FromSend(f.epoch), e, 0, "core", f.taskId, "action.rejected"), pid, Ended(true))
    case (Ended(failed), Continue) => SendTail(r, w, pid, failed, e)
    case (Resuming, Replaced) => RestartTask(r, w, pid, e)
    case (Resuming, ReplacementFailed(cleanupFailed)) => ReplacementFails(r, w, pid, f, cleanupFailed, e)
    case (Rebuilding, Replaced) => RestartTask(r, w, pid, e)
    case (Rebuilding, ReplacementFailed(_)) => ReplacementFails(r, w, pid, f, true, e)
    case _ => w
  }

  // `requestReview`, employee messages, and the promises that hold them.

  function StepReview(r: Roles, w: World, pid: nat, input: Input, e: Environment): World
    requires HasTop(w, pid)
  {
    var f := Top(w, pid);
    var origin := FromReview(f.epoch);
    var current := f.epoch == w.epoch;
    var asked := Record(r, w, origin, e, 0, r.settings.leaderId, f.taskId, "user.approval.requested");
    match (f.phase, input)
    case (Streaming, Proposed(action, allowed)) =>
      if !current then Complete(w, pid, true)
      else if !(action.proposal.ApproveTask? || action.proposal.RejectTask?) || action.taskId != Some(f.taskId) then
        Complete(asked, pid, false)
      else CallDispatch(r, w, pid, origin, action, allowed, e)
    case (Streaming, OtherEvent) => if current then w else Complete(w, pid, true)
    case (Streaming, ErrorEvent) => if current then Complete(asked, pid, false) else Complete(w, pid, true)
    case (Streaming, StreamEnd) =>
      if !current || f.decided then Complete(w, pid, false)
      else if f.taskId !in w.tables.tasks then Complete(w, pid, true)
      else if IsIn(w.tables, f.taskId, Review) then Complete(asked, pid, false)
      else Complete(w, pid, false)
    case (Streaming, StreamError) => Complete(w, pid, true)
    case (Returned(failed), Continue) =>
      if !failed then SetTop(w, pid, f.(decided := true, phase := Streaming))
      else if current then Complete(asked, pid, false)
      else Complete(w, pid, false)
    case _ => w
  }

  function StepMessage(r: Roles, w: World, pid: nat, input: Input, e: Environment): World
    requires HasTop(w, pid)
  {
    match (Top(w, pid).phase, input)
    case (Streaming, Proposed(action, allowed)) => CallDispatch(r, w, pid, FromMessage, action, allowed, e)
    case (Streaming, StreamEnd) => Complete(w, pid, false)
    case (Streaming, StreamError) => Complete(w, pid, true)
    case (Returned(failed), Continue) => if failed then Complete(w, pid, true) else SetPhase(w, pid, Streaming)
    case _ => w
  }

  function StepRoot(r: Roles, w: World, pid: nat, input: Input, e: Environment): World
    requires HasTop(w, pid)
  {
    var f := Top(w, pid);
    match (f.phase, input)
    case (Waiting, Continue) =>
      if f.epoch != w.epoch || !IsEmployee(r.settings.company.employees, r.reviewerId)
          then SetPhase(w, pid, Returned(true))
      else Call(w, pid, Frame(Reviewing, f.taskId, f.epoch, r.reviewerId, false, Streaming))
    case (Returned(failed), Continue) =>
      var noted := if failed && f.epoch == w.epoch && !f.kind.Outside?
                   then Record(r, w, if f.kind.Recovery? then FromReview(f.epoch)
                       else FromSend(f.epoch), e, 0, "core", f.taskId, "task.execution_error")
                   else w;
      Complete(noted.(inFlight := if f.taskId in w.inFlight && w.inFlight[f.taskId] == pid && !f.kind.Outside?
                                  then w.inFlight - {f.taskId} else w.inFlight),
               pid, failed)
    case _ => w
  }

  function Step(r: Roles, w: World, pid: nat, input: Input, e: Environment): World {
    if !HasTop(w, pid) then w
    else match Top(w, pid).kind
      case Sending => StepSend(r, w, pid, input, e)
      case Reviewing => StepReview(r, w, pid, input, e)
      case Messaging => StepMessage(r, w, pid, input, e)
      case _ => StepRoot(r, w, pid, input, e)
  }

  // The calls from outside.

  function StopDispatching(w: World): World {
    w.(accepting := false, epoch := w.epoch + 1)
  }

  function ResumeDispatching(w: World): World {
    w.(accepting := true)
  }

  function RecoverRunning(r: Roles, w: World, ids: seq<TaskId>): World
    decreases |ids|
  {
    if ids == [] then w
    else RecoverRunning(r, if ids[0] in w.inFlight then w else StartInFlight(r, w, ids[0]), ids[1..])
  }

  function RecoverReviews(w: World, ids: seq<TaskId>): World
    decreases |ids|
  {
    if ids == [] then w
    else RecoverReviews(
      if ids[0] in w.inFlight then w
          else Start(w, ids[0], On(Frame(Recovery, ids[0], w.epoch, "", false, Waiting), NoFrame)), ids[1..])
  }

  function WithStatus(t: Tables, listed: seq<TaskId>, status: TaskStatus): seq<TaskId> {
    if listed == [] then []
    else (if IsIn(t, listed[0], status) then [listed[0]] else []) + WithStatus(t, listed[1..], status)
  }

  /** `recoverWork`; `listed` are the ids of all tasks, in the order of the store. */
  function RecoverWork(r: Roles, w: World, listed: seq<TaskId>): World {
    var running, max := WithStatus(w.tables, listed, Running), r.settings.company.limits.maxParallelTasks;
    RecoverReviews(RecoverRunning(r, w, if |running| <= max then running else running[..max]),
                   WithStatus(w.tables, listed, Review))
  }

  function DispatchOutside(r: Roles, w: World, a: Action, allowed: bool, e: Environment): World {
    CallDispatch(r, StartOutside(w), w.nextProcess, FromOutside, a, allowed, e)
  }

  function StartOutside(w: World): World {
    w.(processes := w.processes[w.nextProcess := On(Frame(Outside, "", w.epoch, "", false, Streaming), NoFrame)],
       nextProcess := w.nextProcess + 1)
  }

  /** One stretch: a continuation goes on, or something happens from outside.
      Others may issue any command but the start of a task. */
  datatype Stretch =
    | Wakes(pid: nat, input: Input, environment: Environment)
    | Asked(action: Action, allowed: bool, environment: Environment)
    | Commanded(command: Command)
    | Recovers(listed: seq<TaskId>)
    | Stops
    | Resumes

  function Apply(r: Roles, w: World, stretch: Stretch): World {
    match stretch
    case Wakes(pid, input, e) => Step(r, w, pid, input, e)
    case Asked(a, allowed, e) => DispatchOutside(r, w, a, allowed, e)
    case Commanded(c) => if IsStart(c) then w else Issue(r, w, FromOutside, c)
    case Recovers(listed) => RecoverWork(r, w, listed)
    case Stops => StopDispatching(w)
    case Resumes => ResumeDispatching(w)
  }

  const INITIAL := World(EMPTY, 0, false, map[], 0, map[], [])

  function After(r: Roles, w: World, run: seq<Stretch>): World {
    if run == [] then w else Apply(r, After(r, w, run[..|run| - 1]), run[|run| - 1])
  }

  // What every reachable world satisfies.

  /** A fenced continuation issues commands only in the epoch it captured, and
      tasks are started only while there is capacity. */
  predicate IsLawful(r: Roles, t: Tables, i: Issued) {
    && ((i.origin.FromSend? || i.origin.FromReview?) ==> i.origin.epoch == i.at)
    && (IsStart(i.command) ==> HasCapacity(r, t))
  }

  type Property = (Tables, seq<Issued>) -> bool

  /** Every lawful command, issued in epoch `since` or later, keeps the property. */
  ghost predicate IsKept(r: Roles, good: Property, since: nat) {
    forall t, issued, i {:trigger good(t, issued), IsLawful(r, t, i)} ::
      good(t, issued) && IsLawful(r, t, i) && since <= i.at ==> good(r.service.perform(t, i.command), issued + [i])
  }

  ghost predicate MayWrite(w: World, origin: Origin) {
    (origin.FromSend? || origin.FromReview?) ==> origin.epoch == w.epoch
  }

  lemma IssueKeeps(r: Roles, good: Property, since: nat, w: World, origin: Origin, c: Command)
    requires IsKept(r, good, since) && since <= w.epoch && good(w.tables, w.issued) && MayWrite(w, origin)
    requires IsStart(c) ==> HasCapacity(r, w.tables)
    ensures var w' := Issue(r, w, origin, c); good(w'.tables, w'.issued)
  {
    assert IsLawful(r, w.tables, Issued(origin, w.epoch, c));
  }

  lemma StartReadyTaskKeeps(r: Roles, good: Property, since: nat, w: World, origin: Origin, taskId: TaskId,
                            actorId: EmployeeId, e: Environment)
    requires IsKept(r, good, since) && since <= w.epoch && good(w.tables, w.issued) && MayWrite(w, origin)
    ensures var w' := StartReadyTask(r, w, origin, taskId, actorId, e).0;
            good(w'.tables, w'.issued) && w'.epoch == w.epoch
  {
    if HasCapacity(r, w.tables) {
      IssueKeeps(r, good, since, w, origin, Transition(taskId, Running, actorId, e.ids(1)));
    } else {
      IssueKeeps(r, good, since, w, origin,
          Note(e.ids(1), r.settings.leaderId, Some(taskId), "user.approval.requested"));
    }
  }

  lemma DispatchOnTaskKeeps(r: Roles, good: Property, since: nat, w: World, origin: Origin, taskId: TaskId,
                            actorId: EmployeeId, p: Proposal, e: Environment)
    requires IsKept(r, good, since) && since <= w.epoch && good(w.tables, w.issued) && MayWrite(w, origin)
    requires !p.RequestApproval? && !p.CompleteCompany? && !p.SendMessage?
    ensures var w' := DispatchOnTask(r, w, origin, taskId, actorId, p, e).0;
            good(w'.tables, w'.issued) && w'.epoch == w.epoch
  {
    match p
    case ProposeTask(title, objective, dependencies, criteria) =>
      IssueKeeps(r, good, since, w, origin, Propose(taskId, title, objective, dependencies, criteria, e.ids(0)));
    case ApproveTask => IssueKeeps(r, good, since, w, origin, Transition(taskId, Completed, actorId, e.ids(0)));
    case BlockTask => IssueKeeps(r, good, since, w, origin, Transition(taskId, Blocked, actorId, e.ids(0)));
    case AssignTask(assignee) =>
      var assign := Assign(taskId, assignee, e.ids(0));
      IssueKeeps(r, good, since, w, origin, assign);
      StartReadyTaskKeeps(r, good, since, Issue(r, w, origin, assign), origin, taskId, assignee, e);
    case SubmitTask(artifacts, evidence) =>
      IssueKeeps(r, good, since, w, origin, Submit(taskId, actorId, artifacts, evidence, e.ids(0), e.ids(1)));
    case RejectTask(findings) => RejectKeeps(r, good, since, w, origin, taskId, actorId, findings, e);
    case StartTask => StartReadyTaskKeeps(r, good, since, w, origin, taskId, actorId, e);
    case RequestReview =>
  }

  lemma RejectKeeps(r: Roles, good: Property, since: nat, w: World, origin: Origin, taskId: TaskId,
                    actorId: EmployeeId, findings: seq<string>, e: Environment)
    requires IsKept(r, good, since) && since <= w.epoch && good(w.tables, w.issued) && MayWrite(w, origin)
    ensures var w' := DispatchOnTask(r, w, origin, taskId, actorId, RejectTask(findings), e).0;
            good(w'.tables, w'.issued) && w'.epoch == w.epoch
  {
    var reject := Reject(taskId, actorId, findings, e.ids(0));
    var rejected := Issue(r, w, origin, reject);
    IssueKeeps(r, good, since, w, origin, reject);
    IssueKeeps(r, good, since, rejected, origin,
        Note(e.ids(1), r.settings.leaderId, Some(taskId), "user.approval.requested"));
    if taskId in rejected.tables.tasks && rejected.tables.tasks[taskId].owner.Some? {
      StartReadyTaskKeeps(r, good, since, rejected, origin, taskId, rejected.tables.tasks[taskId].owner.value, e);
    }
  }

  lemma CallDispatchKeeps(r: Roles, good: Property, since: nat, w: World, pid: nat, origin: Origin, a: Action,
                          allowed: bool, e: Environment)
    requires IsKept(r, good, since) && since <= w.epoch && good(w.tables, w.issued) && MayWrite(w, origin)
             && HasTop(w, pid)
    ensures var w' := CallDispatch(r, w, pid, origin, a, allowed, e); good(w'.tables, w'.issued) && w'.epoch == w.epoch
  {
    var p := a.proposal;
    if p.RequestApproval? {
      IssueKeeps(r, good, since, w, origin, Note(e.ids(0), a.actorId, a.taskId, "user.approval.requested"));
    } else if p.CompleteCompany? {
      IssueKeeps(r, good, since, w, origin, Note(e.ids(0), a.actorId, a.taskId, "company.completion_requested"));
    } else if p.SendMessage? {
      IssueKeeps(r, good, since, w, origin, Note(e.ids(0), a.actorId, a.taskId, "employee.message_sent"));
    } else if a.taskId.Some? {
      DispatchOnTaskKeeps(r, good, since, w, origin, a.taskId.value, a.actorId, p, e);
    }
  }

  lemma RetryTaskKeeps(r: Roles, good: Property, since: nat, w: World, pid: nat, f: Frame, e: Environment)
    requires IsKept(r, good, since) && since <= w.epoch && good(w.tables, w.issued) && HasTop(w, pid)
             && f.epoch == w.epoch
    ensures var w' := RetryTask(r, w, pid, f, e); good(w'.tables, w'.issued) && w'.epoch == w.epoch
  {
    var retry := Retry(f.taskId, r.settings.leaderId, e.ids(4));
    IssueKeeps(r, good, since, w, FromSend(f.epoch), retry);
    IssueKeeps(r, good, since, Issue(r, w, FromSend(f.epoch), retry), FromSend(f.epoch),
                Note(e.ids(5), r.settings.leaderId, Some(f.taskId), "user.approval.requested"));
  }

  lemma FailTaskKeeps(r: Roles, good: Property, since: nat, w: World, pid: nat, f: Frame, e: Environment)
    requires IsKept(r, good, since) && since <= w.epoch && good(w.tables, w.issued) && HasTop(w, pid)
             && f.epoch == w.epoch
    ensures var w' := FailTask(r, w, pid, f, e); good(w'.tables, w'.issued) && w'.epoch == w.epoch
  {
    var fail := Transition(f.taskId, Failed, f.employee, e.ids(3));
    IssueKeeps(r, good, since, w, FromSend(f.epoch), fail);
    RetryTaskKeeps(r, good, since, Issue(r, w, FromSend(f.epoch), fail), pid, f, e);
  }

  lemma SendTailKeeps(r: Roles, good: Property, since: nat, w: World, pid: nat, failed: bool, e: Environment)
    requires IsKept(r, good, since) && since <= w.epoch && good(w.tables, w.issued) && HasTop(w, pid)
    ensures var w' := SendTail(r, w, pid, failed, e); good(w'.tables, w'.issued) && w'.epoch == w.epoch
  {
    var f := Top(w, pid);
    if f.epoch == w.epoch {
      var noted := Record(r, w, FromSend(f.epoch), e, 2, f.employee, f.taskId, "task.execution_error");
      IssueKeeps(r, good, since, w, FromSend(f.epoch),
          Note(e.ids(2), f.employee, Some(f.taskId), "task.execution_error"));
      FailTaskKeeps(r, good, since, if failed then w else noted, pid, f, e);
    }
  }

  lemma RestartTaskKeeps(r: Roles, good: Property, since: nat, w: World, pid: nat, e: Environment)
    requires IsKept(r, good, since) && since <= w.epoch && good(w.tables, w.issued) && HasTop(w, pid)
    ensures var w' := RestartTask(r, w, pid, e); good(w'.tables, w'.issued) && w'.epoch == w.epoch
  {
    var f := Top(w, pid);
    if f.epoch == w.epoch {
      if HasCapacity(r, w.tables) {
        IssueKeeps(r, good, since, w, FromSend(f.epoch), Transition(f.taskId, Running, f.employee, e.ids(0)));
      } else {
        IssueKeeps(r, good, since, w, FromSend(f.epoch),
            Note(e.ids(0), r.settings.leaderId, Some(f.taskId), "user.approval.requested"));
      }
    }
  }

  lemma StepStreamKeeps(r: Roles, good: Property, since: nat, w: World, pid: nat, f: Frame, input: Input,
                        e: Environment)
    requires IsKept(r, good, since) && since <= w.epoch && good(w.tables, w.issued) && HasTop(w, pid)
    ensures var w' := StepStream(r, w, pid, f, input, e); good(w'.tables, w'.issued) && w'.epoch == w.epoch
  {
    var origin := FromSend(f.epoch);
    match input
    case StreamEnd => SendTailKeeps(r, good, since, w, pid, false, e);
    case Proposed(action, allowed) =>
      if f.epoch == w.epoch {
        IssueKeeps(r, good, since, w, origin, Note(e.ids(0), "core", Some(f.taskId), "action.rejected"));
        CallDispatchKeeps(r, good, since, w, pid, origin, action, allowed, e);
      }
    case StreamError =>
      if f.epoch == w.epoch {
        IssueKeeps(r, good, since, w, origin, Note(e.ids(0), f.employee, Some(f.taskId), "task.execution_error"));
        SendTailKeeps(r, good, since, Record(r, w, origin, e, 0, f.employee, f.taskId, "task.execution_error"), pid,
            true, e);
      }
    case _ =>
  }

  lemma StepSendKeeps(r: Roles, good: Property, since: nat, w: World, pid: nat, input: Input, e: Environment)
    requires IsKept(r, good, since) && since <= w.epoch && good(w.tables, w.issued) && HasTop(w, pid)
    ensures var w' := StepSend(r, w, pid, input, e); good(w'.tables, w'.issued) && w'.epoch == w.epoch
  {
    var f := Top(w, pid);
    match f.phase
    case Streaming => StepStreamKeeps(r, good, since, w, pid, f, input, e);
    case Ended(failed) => SendTailKeeps(r, good, since, w, pid, failed, e);
    case Returned(_) =>
      if f.epoch == w.epoch {
        IssueKeeps(r, good, since, w, FromSend(f.epoch), Note(e.ids(0), "core", Some(f.taskId), "action.rejected"));
      }
    case _ =>
      if f.epoch == w.epoch {
        IssueKeeps(r, good, since, w, FromSend(f.epoch),
            Note(e.ids(0), r.settings.leaderId, Some(f.taskId), "user.approval.requested"));
      }
      RestartTaskKeeps(r, good, since, w, pid, e);
  }

  lemma StepReviewKeeps(r: Roles, good: Property, since: nat, w: World, pid: nat, input: Input, e: Environment)
    requires IsKept(r, good, since) && since <= w.epoch && good(w.tables, w.issued) && HasTop(w, pid)
    ensures var w' := StepReview(r, w, pid, input, e); good(w'.tables, w'.issued) && w'.epoch == w.epoch
  {
    var f := Top(w, pid);
    var origin := FromReview(f.epoch);
    if f.epoch == w.epoch {
      IssueKeeps(r, good, since, w, origin,
          Note(e.ids(0), r.settings.leaderId, Some(f.taskId), "user.approval.requested"));
      if input.Proposed? {
        CallDispatchKeeps(r, good, since, w, pid, origin, input.action, input.allowed, e);
      }
    }
  }

  lemma StepKeeps(r: Roles, good: Property, since: nat, w: World, pid: nat, input: Input, e: Environment)
    requires IsKept(r, good, since) && since <= w.epoch && good(w.tables, w.issued)
    ensures var w' := Step(r, w, pid, input, e); good(w'.tables, w'.issued) && w'.epoch == w.epoch
  {
    if HasTop(w, pid) {
      var f := Top(w, pid);
      match f.kind
      case Sending => StepSendKeeps(r, good, since, w, pid, input, e);
      case Reviewing => StepReviewKeeps(r, good, since, w, pid, input, e);
      case Messaging =>
        if input.Proposed? {
          CallDispatchKeeps(r, good, since, w, pid, FromMessage, input.action, input.allowed, e);
        }
      case _ =>
        if f.epoch == w.epoch {
          IssueKeeps(r, good, since, w, if f.kind.Recovery? then FromReview(f.epoch)
              else FromSend(f.epoch), Note(e.ids(0), "core", Some(f.taskId), "task.execution_error"));
        }
    }
  }

  lemma {:induction false} RecoveryWritesNothing(r: Roles, w: World, ids: seq<TaskId>)
    ensures var w' := RecoverRunning(r, w, ids); (w'.tables, w'.issued, w'.epoch) == (w.tables, w.issued, w.epoch)
    ensures var w' := RecoverReviews(w, ids); (w'.tables, w'.issued, w'.epoch) == (w.tables, w.issued, w.epoch)
    decreases |ids|
  {
    if ids != [] {
      RecoveryWritesNothing(r, if ids[0] in w.inFlight then w else StartInFlight(r, w, ids[0]), ids[1..]);
      RecoveryWritesNothing(r, if ids[0] in w.inFlight then w
          else Start(w, ids[0], On(Frame(Recovery, ids[0], w.epoch, "", false, Waiting), NoFrame)), ids[1..]);
    }
  }

  lemma RecoverWorkWritesNothing(r: Roles, w: World, listed: seq<TaskId>)
    ensures var w' := RecoverWork(r, w, listed); (w'.tables, w'.issued, w'.epoch) == (w.tables, w.issued, w.epoch)
  {
    var running, max := WithStatus(w.tables, listed, Running), r.settings.company.limits.maxParallelTasks;
    var first := if |running| <= max then running else running[..max];
    RecoveryWritesNothing(r, w, first);
    RecoveryWritesNothing(r, RecoverRunning(r, w, first), WithStatus(w.tables, listed, Review));
  }

  lemma DispatchOutsideKeeps(r: Roles, good: Property, since: nat, w: World, a: Action, allowed: bool, e: Environment)
    requires IsKept(r, good, since) && since <= w.epoch && good(w.tables, w.issued)
    ensures var w' := DispatchOutside(r, w, a, allowed, e); good(w'.tables, w'.issued) && w'.epoch == w.epoch
  {
    CallDispatchKeeps(r, good, since, StartOutside(w), w.nextProcess, FromOutside, a, allowed, e);
  }

  lemma ApplyKeeps(r: Roles, good: Property, since: nat, w: World, stretch: Stretch)
    requires IsKept(r, good, since) && since <= w.epoch && good(w.tables, w.issued)
    ensures var w' := Apply(r, w, stretch); good(w'.tables, w'.issued) && w.epoch <= w'.epoch
  {
    match stretch
    case Wakes(pid, input, e) => StepKeeps(r, good, since, w, pid, input, e);
    case Asked(a, allowed, e) => DispatchOutsideKeeps(r, good, since, w, a, allowed, e);
    case Commanded(c) =>
      if !IsStart(c) {
        IssueKeeps(r, good, since, w, FromOutside, c);
      }
    case Recovers(listed) => RecoverWorkWritesNothing(r, w, listed);
    case _ =>
  }

  /** What holds now, and is kept by lawful commands, holds ever after. */
  lemma {:induction false} RunKeeps(r: Roles, good: Property, w: World, run: seq<Stretch>)
    requires IsKept(r, good, w.epoch) && good(w.tables, w.issued)
    ensures var w' := After(r, w, run); good(w'.tables, w'.issued) && w.epoch <= w'.epoch
  {
    if run != [] {
      RunKeeps(r, good, w, run[..|run| - 1]);
      ApplyKeeps(r, good, w.epoch, After(r, w, run[..|run| - 1]), run[|run| - 1]);
    }
  }

  // The main results.

  /** A command of a fenced continuation was issued in the epoch it had captured. */
  predicate IsFenced(i: Issued) {
    (i.origin.FromSend? || i.origin.FromReview?) ==> i.origin.epoch == i.at
  }

  /** Whatever stops and resumes happen at its awaits, a driver or a review writes
      only while the epoch it captured is current. */
  lemma ContinuationsWriteInTheirEpoch(r: Roles, run: seq<Stretch>, k: nat)
    requires k < |After(r, INITIAL, run).issued|
    ensures IsFenced(After(r, INITIAL, run).issued[k])
  {
    var good := (t: Tables, issued: seq<Issued>) => forall i :: 0 <= i < |issued| ==> IsFenced(issued[i]);
    RunKeeps(r, good, INITIAL, run);
  }

  /** After a stop, nothing that was started before it writes any more, except
      the routing of employee messages. */
  lemma StoppedWorkNeverWrites(r: Roles, before: World, run: seq<Stretch>, k: nat)
    requires |before.issued| <= k < |After(r, StopDispatching(before), run).issued|
    ensures var i := After(r, StopDispatching(before), run).issued[k];
            i.origin.FromSend? || i.origin.FromReview? ==> i.origin.epoch > before.epoch
  {
    var start, since := |before.issued|, before.epoch + 1;
    var good := (t: Tables, issued: seq<Issued>) =>
      start <= |issued| && forall i :: start <= i < |issued| ==> IsFenced(issued[i]) && since <= issued[i].at;
    RunKeeps(r, good, StopDispatching(before), run);
  }

  /** The command a proposed action stands for, where it stands for one. */
  function CommandOf(taskId: TaskId, actorId: EmployeeId, p: Proposal, e: Environment): Option<Command> {
    match p
    case ProposeTask(title, objective, dependencies, criteria) =>
      Some(Propose(taskId, title, objective, dependencies, criteria, e.ids(0)))
    case AssignTask(assignee) => Some(Assign(taskId, assignee, e.ids(0)))
    case SubmitTask(artifacts, evidence) => Some(Submit(taskId, actorId, artifacts, evidence, e.ids(0), e.ids(1)))
    case ApproveTask => Some(Transition(taskId, Completed, actorId, e.ids(0)))
    case RejectTask(findings) => Some(Reject(taskId, actorId, findings, e.ids(0)))
    case BlockTask => Some(Transition(taskId, Blocked, actorId, e.ids(0)))
    case _ => None
  }

  /** The command is the first one issued; or it fails, and nothing changes. */
  ghost predicate IssuesFirst(r: Roles, w: World, origin: Origin, c: Command, result: (World, Dispatched)) {
    if r.service.succeeds(w.tables, c) then w.issued + [Issued(origin, w.epoch, c)] <= result.0.issued
    else result == (w, Threw)
  }

  lemma StartingOnlyAddsIssued(r: Roles, w: World, origin: Origin, taskId: TaskId, actorId: EmployeeId, e: Environment)
    ensures w.issued <= StartReadyTask(r, w, origin, taskId, actorId, e).0.issued
  {
  }

  lemma AssignmentIssuesFirst(r: Roles, w: World, origin: Origin, taskId: TaskId, actorId: EmployeeId,
                              assignee: EmployeeId, e: Environment)
    ensures IssuesFirst(r, w, origin, Assign(taskId, assignee, e.ids(0)),
              DispatchOnTask(r, w, origin, taskId, actorId, AssignTask(assignee), e))
  {
    var owned := Issue(r, w, origin, Assign(taskId, assignee, e.ids(0)));
    StartingOnlyAddsIssued(r, owned, origin, taskId, assignee, e);
  }

  lemma RejectionIssuesFirst(r: Roles, w: World, origin: Origin, taskId: TaskId, actorId: EmployeeId,
                             findings: seq<string>, e: Environment)
    ensures IssuesFirst(r, w, origin, Reject(taskId, actorId, findings, e.ids(0)),
              DispatchOnTask(r, w, origin, taskId, actorId, RejectTask(findings), e))
  {
    var rejected := Issue(r, w, origin, Reject(taskId, actorId, findings, e.ids(0)));
    if taskId in rejected.tables.tasks && rejected.tables.tasks[taskId].owner.Some? {
      StartingOnlyAddsIssued(r, rejected, origin, taskId, rejected.tables.tasks[taskId].owner.value, e);
    }
  }

  /** An action is carried out exactly if the policy allows it, actions are accepted
      and its command succeeds; the command is the first one issued, and an action
      that is not carried out changes nothing. */
  lemma ActionsIssueTheirCommand(r: Roles, w: World, origin: Origin, a: Action, allowed: bool, e: Environment)
    requires a.taskId.Some? && CommandOf(a.taskId.value, a.actorId, a.proposal, e).Some?
    ensures var c := CommandOf(a.taskId.value, a.actorId, a.proposal, e).value;
            var (w', dispatched) := Dispatch(r, w, origin, a, allowed, e);
            if allowed && w.accepting then IssuesFirst(r, w, origin, c, (w', dispatched))
            else (w', dispatched) == (w, Threw)
  {
    var id := a.taskId.value;
    match a.proposal
    case AssignTask(assignee) => AssignmentIssuesFirst(r, w, origin, id, a.actorId, assignee, e);
    case RejectTask(findings) => RejectionIssuesFirst(r, w, origin, id, a.actorId, findings, e);
    case _ =>
  }

  /** A submission that is carried out is reviewed at once, if there is a reviewer. */
  lemma SubmissionsAreReviewed(r: Roles, w: World, origin: Origin, a: Action, e: Environment)
    requires a.taskId.Some? && a.proposal.SubmitTask? && w.accepting
    requires r.service.succeeds(w.tables, CommandOf(a.taskId.value, a.actorId, a.proposal, e).value)
    ensures var dispatched := Dispatch(r, w, origin, a, true, e).1;
            if IsEmployee(r.settings.company.employees, r.reviewerId)
            then dispatched == Awaits(Frame(Reviewing, a.taskId.value, w.epoch, r.reviewerId, false, Streaming))
            else dispatched == Threw
  {
  }

  /** What an employee or a reviewer proposes for the task at hand is carried out. */
  lemma ContinuationsCarryOutActions(r: Roles, w: World, pid: nat, a: Action, e: Environment)
    requires HasTop(w, pid) && Top(w, pid).phase == Streaming && Top(w, pid).epoch == w.epoch && w.accepting
    requires || Top(w, pid).kind == Sending
             || (Top(w, pid).kind == Reviewing && (a.proposal.ApproveTask? || a.proposal.RejectTask?))
    requires a.taskId == Some(Top(w, pid).taskId)
    requires CommandOf(a.taskId.value, a.actorId, a.proposal, e).Some?
    requires r.service.succeeds(w.tables, CommandOf(a.taskId.value, a.actorId, a.proposal, e).value)
    ensures var f, w' := Top(w, pid), Step(r, w, pid, Proposed(a, true), e);
            var origin := if f.kind == Sending then FromSend(f.epoch) else FromReview(f.epoch);
            w.issued + [Issued(origin, w.epoch, CommandOf(a.taskId.value, a.actorId, a.proposal, e).value)] <= w'.issued
  {
    var f := Top(w, pid);
    var origin := if f.kind == Sending then FromSend(f.epoch) else FromReview(f.epoch);
    ActionsIssueTheirCommand(r, w, origin, a, true, e);
    assert Step(r, w, pid, Proposed(a, true), e) == CallDispatch(r, w, pid, origin, a, true, e);
  }

  function Depth(stack: Stack): nat {
    if stack.NoFrame? then 0 else 1 + Depth(stack.below)
  }

  /** The continuation on top of `pid` ended, and did not fail. */
  predicate EndsWell(w: World, pid: nat, w': World)
    requires HasTop(w, pid)
  {
    && HasTop(w', pid) && Depth(w'.processes[pid]) < Depth(w.processes[pid])
    && Top(w', pid).phase == Returned(false)
  }

  /** A current review that ends without an error has a decision, or the user was
      asked, or there is nothing left to decide. */
  lemma ReviewsEndDecidedOrAsked(r: Roles, w: World, pid: nat, input: Input, e: Environment)
    requires HasTop(w, pid) && Top(w, pid).kind == Reviewing && Top(w, pid).epoch == w.epoch
    requires EndsWell(w, pid, StepReview(r, w, pid, input, e))
    ensures var f, w' := Top(w, pid), StepReview(r, w, pid, input, e);
            || f.decided || !IsIn(w.tables, f.taskId, Review)
            || w'.issued == w.issued
                 + [Issued(FromReview(f.epoch), w.epoch,
                     Note(e.ids(0), r.settings.leaderId, Some(f.taskId), "user.approval.requested"))]
  {
  }

  ghost predicate TasksAreFine(r: Roles, t: Tables) {
    |RunningTasks(t)| <= r.settings.company.limits.maxParallelTasks && Invariant(r.settings, t)
  }

  lemma RunningAfter(s: Settings, t: Tables, c: Command)
    requires IdsMatch(t)
    ensures RunningTasks(Perform(s, t, c)) <= RunningTasks(t) + if IsStart(c) then {c.taskId} else {}
  {
    if !c.Note? && Decide(s, t, c).Write? {
      WrittenRecord(s, t, c);
    }
  }

  lemma {:induction false} SubsetIsSmaller(a: set<TaskId>, b: set<TaskId>)
    requires a <= b
    ensures |a| <= |b|
  {
    if a != {} {
      var x :| x in a;
      SubsetIsSmaller(a - {x}, b - {x});
    }
  }

  lemma LawfulCommandKeepsTasksFine(r: Roles, t: Tables, i: Issued)
    requires TasksAreFine(r, t) && IsLawful(r, t, i)
    ensures TasksAreFine(r, Perform(r.settings, t, i.command))
  {
    StepKeepsInvariant(r.settings, t, i.command);
    RunningAfter(r.settings, t, i.command);
    var more := RunningTasks(t) + if IsStart(i.command) then {i.command.taskId} else {};
    SubsetIsSmaller(RunningTasks(Perform(r.settings, t, i.command)), more);
  }

  /** However drivers, reviews, rejections, retries after awaited replacements,
      recovery and outside commands interleave: never more tasks run than the
      company allows, and the tables keep everything the task service promises. */
  lemma RunningTasksStayWithinLimit(r: Roles, run: seq<Stretch>)
    requires r.service == TaskServiceOf(r.settings)
    ensures |RunningTasks(After(r, INITIAL, run).tables)| <= r.settings.company.limits.maxParallelTasks
    ensures Invariant(r.settings, After(r, INITIAL, run).tables)
  {
    var good := (t: Tables, issued: seq<Issued>) => TasksAreFine(r, t);
    forall t, issued, i: Issued | good(t, issued) && IsLawful(r, t, i)
      ensures good(r.service.perform(t, i.command), issued + [i])
    {
      LawfulCommandKeepsTasksFine(r, t, i);
    }
    EmptyStoreIsFine(r.settings);
    RunKeeps(r, good, INITIAL, run);
  }
}
