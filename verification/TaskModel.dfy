/**
 Task records, the events written with them, the tables of the task store, and
 what each task operation decides to write.
 */
module TaskModel {
  import opened Company
  import opened TaskGraph
  import opened Wrappers

  type EventId = string

  datatype TaskStatus = Draft | Ready | Running | Review | Completed | Blocked | Failed

  datatype TaskRecord = TaskRecord(
    id: TaskId, title: string, objective: string, owner: Option<EmployeeId>,
    dependencies: seq<TaskId>, acceptanceCriteria: seq<string>, status: TaskStatus,
    retryCount: int, reviewLoopCount: int, artifacts: seq<string>, evidence: seq<string>,
    createdEventId: EventId, updatedEventId: EventId)

  /** The type and payload of an event. `Noted` stands for every event that
      other services write about a task or about none. */
  datatype Fact =
    | Created
    | Assigned(assignee: EmployeeId)
    | StatusChanged(previous: TaskStatus, next: TaskStatus)
    | Submitted(artifacts: seq<string>, evidence: seq<string>)
    | ReviewRequested(submittedEventId: EventId)
    | RetryScheduled(retryCount: int)
    | RetryExhausted(retryCount: int)
    | ReworkRequested(findings: seq<string>, reviewLoopCount: int)
    | ReworkExhausted(findings: seq<string>, reviewLoopCount: int)
    | Unblocked(previous: TaskStatus, retryCount: int, reviewLoopCount: int)
    | Noted(kind: string)

  datatype Event = Event(id: EventId, actorId: EmployeeId, taskId: Option<TaskId>, fact: Fact)

  datatype ArtifactKind = Artifact | Evidence

  /** The rows of the tables `tasks`, `task_dependencies`, `task_artifacts` and
      `events`; the event at position `i` has sequence number `i + 1`. */
  datatype Tables = Tables(
    tasks: map<TaskId, TaskRecord>,
    dependencyRows: set<(TaskId, TaskId)>,
    artifactRows: set<(TaskId, ArtifactKind, string)>,
    log: seq<Event>)

  datatype TaskError =
    | TaskExists | MustBeDraft | MustHaveNoOwner | DependencyCycle | TaskNotFound
    | IllegalTransition | UseDedicatedOperation | UnknownEmployee | WorktreeRequired
    | DependencyNotFound | DependenciesIncomplete | OwnerRequired | ReviewPermissionRequired
    | EvidenceRequired | ArtifactsRequired | FindingsRequired | LeaderRequired | StoreFailure

  datatype Outcome = Written(record: TaskRecord) | Refused(error: TaskError)

  datatype Decision = Write(record: TaskRecord, events: seq<Event>) | Refuse(error: TaskError)

  datatype Settings = Settings(company: CompanyDefinition, leaderId: EmployeeId)

  // The store.

  predicate FreshIds(log: seq<Event>, events: seq<Event>) {
    && (forall i, j :: 0 <= i < j < |events| ==> events[i].id != events[j].id)
    && (forall i, j :: 0 <= i < |events| && 0 <= j < |log| ==> events[i].id != log[j].id)
  }

  /** What the primary keys and the unique event id let through. */
  predicate CanPut(t: Tables, record: TaskRecord, events: seq<Event>) {
    && events != []
    && Distinct(record.dependencies)
    && Distinct(record.artifacts)
    && Distinct(record.evidence)
    && FreshIds(t.log, events)
  }

  function DependencyRowsOf(record: TaskRecord): set<(TaskId, TaskId)> {
    set d | d in record.dependencies :: (record.id, d)
  }

  function ArtifactRowsOf(record: TaskRecord): set<(TaskId, ArtifactKind, string)> {
    (set a | a in record.artifacts :: (record.id, Artifact, a))
    + (set e | e in record.evidence :: (record.id, Evidence, e))
  }

  function Put(t: Tables, record: TaskRecord, events: seq<Event>): Tables {
    Tables(
      t.tasks[record.id := record],
      (set row | row in t.dependencyRows && row.0 != record.id) + DependencyRowsOf(record),
      (set row | row in t.artifactRows && row.0 != record.id) + ArtifactRowsOf(record),
      t.log + events)
  }

  function Settle(t: Tables, decision: Decision): (Outcome, Tables) {
    match decision
    case Refuse(error) => (Refused(error), t)
    case Write(record, events) =>
      if CanPut(t, record, events) then (Written(record), Put(t, record, events))
      else (Refused(StoreFailure), t)
  }

  function GraphOf(tasks: map<TaskId, TaskRecord>): Graph {
    map id | id in tasks :: tasks[id].dependencies
  }

  // The task operations.

  function LegalTransitions(status: TaskStatus): set<TaskStatus> {
    match status
    case Draft => {Ready}
    case Ready => {Running}
    case Running => {Review, Blocked, Failed}
    case Review => {Completed, Ready, Blocked}
    case Completed => {}
    case Blocked => {Ready}
    case Failed => {Ready, Blocked}
  }

  /** The status changes that have an operation of their own. */
  predicate HasDedicatedOperation(current: TaskStatus, next: TaskStatus) {
    || (current == Draft && next == Ready)
    || (current == Running && next == Review)
    || (current == Review && next in {Ready, Blocked})
    || (current == Failed && next in {Ready, Blocked})
    || (current == Blocked && next == Ready)
  }

  predicate DependenciesComplete(tasks: map<TaskId, TaskRecord>, record: TaskRecord) {
    forall d :: d in record.dependencies ==> d in tasks && tasks[d].status == Completed
  }

  function TaskEvent(id: EventId, actorId: EmployeeId, taskId: TaskId, fact: Fact): Event {
    Event(id, actorId, Some(taskId), fact)
  }

  ghost function DecideCreate(t: Tables, input: TaskRecord, eventId: EventId): Decision {
    if input.id in t.tasks then Refuse(TaskExists)
    else if input.status != Draft then Refuse(MustBeDraft)
    else if input.owner != None then Refuse(MustHaveNoOwner)
    else if !Acyclic(GraphOf(t.tasks)[input.id := input.dependencies]) then Refuse(DependencyCycle)
    else Write(input.(createdEventId := eventId, updatedEventId := eventId),
               [TaskEvent(eventId, "core", input.id, Created)])
  }

  function DecideAssign(s: Settings, t: Tables, taskId: TaskId, employeeId: EmployeeId, eventId: EventId): Decision {
    if taskId !in t.tasks then Refuse(TaskNotFound) else
    var record := t.tasks[taskId];
    if Ready !in LegalTransitions(record.status) then Refuse(IllegalTransition)
    else if !IsEmployee(s.company.employees, employeeId) then Refuse(UnknownEmployee)
    else if FindEmployee(s.company.employees, employeeId).workspace != GitWorktree then Refuse(WorktreeRequired)
    else if exists d :: d in record.dependencies && d !in t.tasks then Refuse(DependencyNotFound)
    else Write(record.(owner := Some(employeeId), status := Ready, updatedEventId := eventId),
               [TaskEvent(eventId, "core", taskId, Assigned(employeeId))])
  }

  function DecideTransition(s: Settings, t: Tables, taskId: TaskId, next: TaskStatus, actorId: EmployeeId,
                            eventId: EventId): Decision {
    if taskId !in t.tasks then Refuse(TaskNotFound) else
    var record := t.tasks[taskId];
    if next !in LegalTransitions(record.status) then Refuse(IllegalTransition)
    else if HasDedicatedOperation(record.status, next) then Refuse(UseDedicatedOperation)
    else if !IsEmployee(s.company.employees, actorId) then Refuse(UnknownEmployee)
    else if next == Running && !DependenciesComplete(t.tasks, record) then Refuse(DependenciesIncomplete)
    else if next == Running && record.owner != Some(actorId) then Refuse(OwnerRequired)
    else if next == Completed && FindEmployee(s.company.employees, actorId).workspace != ReviewPackage
        then Refuse(ReviewPermissionRequired)
    else if next == Completed && (record.artifacts == [] || record.evidence == []) then Refuse(EvidenceRequired)
    else Write(record.(status := next, updatedEventId := eventId),
               [TaskEvent(eventId, actorId, taskId, StatusChanged(record.status, next))])
  }

  function DecideSubmit(t: Tables, taskId: TaskId, actorId: EmployeeId, artifacts: seq<string>, evidence: seq<string>,
                        submittedId: EventId, reviewId: EventId): Decision {
    if taskId !in t.tasks then Refuse(TaskNotFound) else
    var record := t.tasks[taskId];
    if Review !in LegalTransitions(record.status) then Refuse(IllegalTransition)
    else if record.owner != Some(actorId) then Refuse(OwnerRequired)
    else if artifacts == [] then Refuse(ArtifactsRequired)
    else if evidence == [] then Refuse(EvidenceRequired)
    else Write(record.(status := Review, artifacts := artifacts, evidence := evidence, updatedEventId := reviewId),
               [TaskEvent(submittedId, actorId, taskId, Submitted(artifacts, evidence)),
                TaskEvent(reviewId, actorId, taskId, ReviewRequested(submittedId))])
  }

  function DecideRetry(s: Settings, t: Tables, taskId: TaskId, actorId: EmployeeId, eventId: EventId): Decision {
    if taskId !in t.tasks then Refuse(TaskNotFound) else
    var record := t.tasks[taskId];
    var remaining := record.retryCount < s.company.limits.maxTaskRetry;
    var next := if remaining then Ready else Blocked;
    var retryCount := if remaining then record.retryCount + 1 else record.retryCount;
    if next !in LegalTransitions(record.status) then Refuse(IllegalTransition)
    else Write(record.(status := next, retryCount := retryCount, updatedEventId := eventId),
               [TaskEvent(eventId, actorId, taskId, if remaining then RetryScheduled(retryCount)
                   else RetryExhausted(retryCount))])
  }

  function DecideReject(s: Settings, t: Tables, taskId: TaskId, reviewerId: EmployeeId, findings: seq<string>,
                        eventId: EventId): Decision {
    if taskId !in t.tasks then Refuse(TaskNotFound) else
    var record := t.tasks[taskId];
    if findings == [] then Refuse(FindingsRequired) else
    var loops := record.reviewLoopCount + 1;
    var next := if loops < s.company.limits.maxReviewLoops then Ready else Blocked;
    if next !in LegalTransitions(record.status) then Refuse(IllegalTransition)
    else Write(record.(status := next, reviewLoopCount := loops, updatedEventId := eventId),
               [TaskEvent(eventId, reviewerId, taskId,
                          if next == Ready then ReworkRequested(findings, loops)
                              else ReworkExhausted(findings, loops))])
  }

  function DecideUnblock(s: Settings, t: Tables, taskId: TaskId, actorId: EmployeeId, eventId: EventId): Decision {
    if taskId !in t.tasks then Refuse(TaskNotFound) else
    var record := t.tasks[taskId];
    if Ready !in LegalTransitions(record.status) then Refuse(IllegalTransition)
    else if actorId != OWNER && !IsEmployee(s.company.employees, actorId) then Refuse(UnknownEmployee)
    else if actorId != OWNER && actorId != s.leaderId then Refuse(LeaderRequired)
    else Write(record.(status := Ready, updatedEventId := eventId),
               [TaskEvent(eventId, actorId, taskId,
                   Unblocked(record.status, record.retryCount, record.reviewLoopCount))])
  }
}
