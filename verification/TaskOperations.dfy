/**
 The task operations over the store. Each one ends in the outcome and the
 tables that `Settle` gives for its decision.
 */
module TaskOperations {
  import opened Company
  import opened TaskGraph
  import opened TaskModel
  import CoreStore
  import opened Wrappers

  class TaskService {
    const store: CoreStore.Store
    const settings: Settings

    constructor (store: CoreStore.Store, settings: Settings)
      ensures this.store == store && this.settings == settings
    {
      this.store, this.settings := store, settings;
    }

    method Get(taskId: TaskId) returns (record: Option<TaskRecord>)
      ensures record == if taskId in store.tasks then Some(store.tasks[taskId]) else None
    {
      record := if taskId in store.tasks then Some(store.tasks[taskId]) else None;
    }

    method Commit(record: TaskRecord, events: seq<Event>) returns (outcome: Outcome)
      modifies store
      ensures (outcome, store.State()) == Settle(old(store.State()), Write(record, events))
    {
      var ok := store.PutTask(record, events);
      outcome := if ok then Written(record) else Refused(StoreFailure);
    }

    method Create(input: TaskRecord, eventId: EventId) returns (outcome: Outcome)
      modifies store
      ensures (outcome, store.State()) == Settle(old(store.State()), DecideCreate(old(store.State()), input, eventId))
    {
      if input.id in store.tasks {
        return Refused(TaskExists);
      }
      if input.status != Draft {
        return Refused(MustBeDraft);
      }
      if input.owner != None {
        return Refused(MustHaveNoOwner);
      }
      var dependencies := GraphOf(store.tasks);
      dependencies := dependencies[input.id := input.dependencies];
      var verdict := FindCycle(dependencies);
      if verdict.CycleAt? {
        return Refused(DependencyCycle);
      }
      outcome := Commit(input.(createdEventId := eventId, updatedEventId := eventId),
                        [TaskEvent(eventId, "core", input.id, Created)]);
    }

    method Assign(taskId: TaskId, employeeId: EmployeeId, eventId: EventId) returns (outcome: Outcome)
      modifies store
      ensures (outcome, store.State()) ==
                Settle(old(store.State()), DecideAssign(settings, old(store.State()), taskId, employeeId, eventId))
    {
      var found := Get(taskId);
      if found == None {
        return Refused(TaskNotFound);
      }
      var record := found.value;
      if Ready !in LegalTransitions(record.status) {
        return Refused(IllegalTransition);
      }
      if !IsEmployee(settings.company.employees, employeeId) {
        return Refused(UnknownEmployee);
      }
      if FindEmployee(settings.company.employees, employeeId).workspace != GitWorktree {
        return Refused(WorktreeRequired);
      }
      for i := 0 to |record.dependencies|
        invariant forall k :: 0 <= k < i ==> record.dependencies[k] in store.tasks
      {
        if record.dependencies[i] !in store.tasks {
          return Refused(DependencyNotFound);
        }
      }
      outcome := Commit(record.(owner := Some(employeeId), status := Ready, updatedEventId := eventId),
                        [TaskEvent(eventId, "core", taskId, Assigned(employeeId))]);
    }

    method Transition(taskId: TaskId, next: TaskStatus, actorId: EmployeeId, eventId: EventId)
      returns (outcome: Outcome)
      modifies store
      ensures (outcome, store.State()) ==
                Settle(old(store.State()), DecideTransition(settings, old(store.State()), taskId, next, actorId,
                    eventId))
    {
      var found := Get(taskId);
      if found == None {
        return Refused(TaskNotFound);
      }
      var record := found.value;
      if next !in LegalTransitions(record.status) {
        return Refused(IllegalTransition);
      }
      if HasDedicatedOperation(record.status, next) {
        return Refused(UseDedicatedOperation);
      }
      if !IsEmployee(settings.company.employees, actorId) {
        return Refused(UnknownEmployee);
      }
      if next == Running {
        if !DependenciesComplete(store.tasks, record) {
          return Refused(DependenciesIncomplete);
        }
        if record.owner != Some(actorId) {
          return Refused(OwnerRequired);
        }
      }
      if next == Completed {
        if FindEmployee(settings.company.employees, actorId).workspace != ReviewPackage {
          return Refused(ReviewPermissionRequired);
        }
        if record.artifacts == [] || record.evidence == [] {
          return Refused(EvidenceRequired);
        }
      }
      outcome := Commit(record.(status := next, updatedEventId := eventId),
                        [TaskEvent(eventId, actorId, taskId, StatusChanged(record.status, next))]);
    }

    method Submit(taskId: TaskId, actorId: EmployeeId, artifacts: seq<string>, evidence: seq<string>,
                  submittedId: EventId, reviewId: EventId) returns (outcome: Outcome)
      modifies store
      ensures (outcome, store.State()) ==
              Settle(old(store.State()), DecideSubmit(old(store.State()), taskId, actorId, artifacts, evidence,
                  submittedId, reviewId))
    {
      var found := Get(taskId);
      if found == None {
        return Refused(TaskNotFound);
      }
      var record := found.value;
      if Review !in LegalTransitions(record.status) {
        return Refused(IllegalTransition);
      }
      if record.owner != Some(actorId) {
        return Refused(OwnerRequired);
      }
      if artifacts == [] {
        return Refused(ArtifactsRequired);
      }
      if evidence == [] {
        return Refused(EvidenceRequired);
      }
      outcome := Commit(record.(status := Review, artifacts := artifacts, evidence := evidence,
          updatedEventId := reviewId),
                        [TaskEvent(submittedId, actorId, taskId, Submitted(artifacts, evidence)),
                         TaskEvent(reviewId, actorId, taskId, ReviewRequested(submittedId))]);
    }

    method Retry(taskId: TaskId, actorId: EmployeeId, eventId: EventId) returns (outcome: Outcome)
      modifies store
      ensures (outcome, store.State()) ==
                Settle(old(store.State()), DecideRetry(settings, old(store.State()), taskId, actorId, eventId))
    {
      var found := Get(taskId);
      if found == None {
        return Refused(TaskNotFound);
      }
      var record := found.value;
      var remaining := record.retryCount < settings.company.limits.maxTaskRetry;
      var next := if remaining then Ready else Blocked;
      if next !in LegalTransitions(record.status) {
        return Refused(IllegalTransition);
      }
      var retryCount := if remaining then record.retryCount + 1 else record.retryCount;
      outcome := Commit(record.(status := next, retryCount := retryCount, updatedEventId := eventId),
                        [TaskEvent(eventId, actorId, taskId,
                                   if remaining then RetryScheduled(retryCount) else RetryExhausted(retryCount))]);
    }

    method Reject(taskId: TaskId, reviewerId: EmployeeId, findings: seq<string>, eventId: EventId)
      returns (outcome: Outcome)
      modifies store
      ensures (outcome, store.State()) ==
                Settle(old(store.State()), DecideReject(settings, old(store.State()), taskId, reviewerId, findings,
                    eventId))
    {
      var found := Get(taskId);
      if found == None {
        return Refused(TaskNotFound);
      }
      var record := found.value;
      if findings == [] {
        return Refused(FindingsRequired);
      }
      var loops := record.reviewLoopCount + 1;
      var next := if loops < settings.company.limits.maxReviewLoops then Ready else Blocked;
      if next !in LegalTransitions(record.status) {
        return Refused(IllegalTransition);
      }
      outcome := Commit(record.(status := next, reviewLoopCount := loops, updatedEventId := eventId),
                        [TaskEvent(eventId, reviewerId, taskId,
                                   if next == Ready then ReworkRequested(findings, loops)
                                       else ReworkExhausted(findings, loops))]);
    }

    method Unblock(taskId: TaskId, actorId: EmployeeId, eventId: EventId) returns (outcome: Outcome)
      modifies store
      ensures (outcome, store.State()) ==
                Settle(old(store.State()), DecideUnblock(settings, old(store.State()), taskId, actorId, eventId))
    {
      var found := Get(taskId);
      if found == None {
        return Refused(TaskNotFound);
      }
      var record := found.value;
      if Ready !in LegalTransitions(record.status) {
        return Refused(IllegalTransition);
      }
      if actorId != OWNER {
        if !IsEmployee(settings.company.employees, actorId) {
          return Refused(UnknownEmployee);
        }
        if actorId != settings.leaderId {
          return Refused(LeaderRequired);
        }
      }
      outcome := Commit(record.(status := Ready, updatedEventId := eventId),
                        [TaskEvent(eventId, actorId, taskId,
                            Unblocked(record.status, record.retryCount, record.reviewLoopCount))]);
    }
  }
}
