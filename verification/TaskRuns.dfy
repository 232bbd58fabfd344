/**
 What holds after any sequence of task operations, whoever issues them and in
 whatever order, starting from an empty store.
 */
module TaskRuns {
  import opened Company
  import opened TaskGraph
  import opened TaskModel
  import opened Wrappers

  /** One call of a task operation, or (`Note`) an event some other service writes. */
  datatype Command =
    | Propose(taskId: TaskId, title: string, objective: string, dependencies: seq<TaskId>, criteria: seq<string>,
        eventId: EventId)
    | Assign(taskId: TaskId, employeeId: EmployeeId, eventId: EventId)
    | Transition(taskId: TaskId, next: TaskStatus, actorId: EmployeeId, eventId: EventId)
    | Submit(taskId: TaskId, actorId: EmployeeId, artifacts: seq<string>, evidence: seq<string>, eventId: EventId,
        reviewId: EventId)
    | Retry(taskId: TaskId, actorId: EmployeeId, eventId: EventId)
    | Reject(taskId: TaskId, actorId: EmployeeId, findings: seq<string>, eventId: EventId)
    | Unblock(taskId: TaskId, actorId: EmployeeId, eventId: EventId)
    | Note(eventId: EventId, actorId: EmployeeId, about: Option<TaskId>, kind: string)

  /** A new task as the orchestrator proposes it. */
  function ProposedTask(c: Command): TaskRecord
    requires c.Propose?
  {
    TaskRecord(c.taskId, c.title, c.objective, None, c.dependencies, c.criteria, Draft, 0, 0, [], [], "", "")
  }

  ghost function Decide(s: Settings, t: Tables, c: Command): Decision
    requires !c.Note?
  {
    match c
    case Propose(_, _, _, _, _, eventId) => DecideCreate(t, ProposedTask(c), eventId)
    case Assign(taskId, employeeId, eventId) => DecideAssign(s, t, taskId, employeeId, eventId)
    case Transition(taskId, next, actorId, eventId) => DecideTransition(s, t, taskId, next, actorId, eventId)
    case Submit(taskId, actorId, artifacts, evidence, eventId, reviewId) =>
      DecideSubmit(t, taskId, actorId, artifacts, evidence, eventId, reviewId)
    case Retry(taskId, actorId, eventId) => DecideRetry(s, t, taskId, actorId, eventId)
    case Reject(taskId, actorId, findings, eventId) => DecideReject(s, t, taskId, actorId, findings, eventId)
    case Unblock(taskId, actorId, eventId) => DecideUnblock(s, t, taskId, actorId, eventId)
  }

  ghost function Perform(s: Settings, t: Tables, c: Command): Tables {
    if c.Note? then
      var event := Event(c.eventId, c.actorId, c.about, Noted(c.kind));
      if FreshIds(t.log, [event]) then t.(log := t.log + [event]) else t
    else
      Settle(t, Decide(s, t, c)).1
  }

  ghost function Continue(s: Settings, t: Tables, commands: seq<Command>): Tables {
    if commands == [] then t
    else Perform(s, Continue(s, t, commands[..|commands| - 1]), commands[|commands| - 1])
  }

  const EMPTY := Tables(map[], {}, {}, [])

  // Reading a task back from the event log.

  datatype TaskView = TaskView(
    status: TaskStatus, owner: Option<EmployeeId>, retryCount: int, reviewLoopCount: int,
    artifacts: seq<string>, evidence: seq<string>, createdEventId: EventId, updatedEventId: EventId)

  function ViewOf(r: TaskRecord): TaskView {
    TaskView(r.status, r.owner, r.retryCount, r.reviewLoopCount, r.artifacts, r.evidence, r.createdEventId,
        r.updatedEventId)
  }

  function ReplayEvent(view: Option<TaskView>, e: Event, id: TaskId): Option<TaskView> {
    if e.taskId != Some(id) || e.fact.Noted? then view
    else if e.fact.Created? then Some(TaskView(Draft, None, 0, 0, [], [], e.id, e.id))
    else if view.None? then None
    else
      var v := view.value.(updatedEventId := e.id);
      match e.fact
      case Created => Some(v)
      case Noted(_) => view
      case Assigned(assignee) => Some(v.(status := Ready, owner := Some(assignee)))
      case StatusChanged(_, next) => Some(v.(status := next))
      case Submitted(artifacts, evidence) => Some(v.(artifacts := artifacts, evidence := evidence))
      case ReviewRequested(_) => Some(v.(status := Review))
      case RetryScheduled(n) => Some(v.(status := Ready, retryCount := n))
      case RetryExhausted(n) => Some(v.(status := Blocked, retryCount := n))
      case ReworkRequested(_, n) => Some(v.(status := Ready, reviewLoopCount := n))
      case ReworkExhausted(_, n) => Some(v.(status := Blocked, reviewLoopCount := n))
      case Unblocked(_, n, m) => Some(v.(status := Ready, retryCount := n, reviewLoopCount := m))
  }

  function Replay(log: seq<Event>, id: TaskId): Option<TaskView> {
    if log == [] then None
    else ReplayEvent(Replay(log[..|log| - 1], id), log[|log| - 1], id)
  }

  function CountRetries(log: seq<Event>, id: TaskId): nat {
    if log == [] then 0
    else CountRetries(log[..|log| - 1], id)
         + (if log[|log| - 1].taskId == Some(id) && log[|log| - 1].fact.RetryScheduled? then 1 else 0)
  }

  function CountReworks(log: seq<Event>, id: TaskId): nat {
    if log == [] then 0
    else CountReworks(log[..|log| - 1], id)
         + (if log[|log| - 1].taskId == Some(id) && log[|log| - 1].fact.ReworkRequested? then 1 else 0)
  }

  function CountExhausted(log: seq<Event>, id: TaskId): nat {
    if log == [] then 0
    else CountExhausted(log[..|log| - 1], id)
         + (if log[|log| - 1].taskId == Some(id) && log[|log| - 1].fact.ReworkExhausted? then 1 else 0)
  }

  // The invariants.

  ghost predicate IdsMatch(t: Tables) {
    forall id :: id in t.tasks ==> t.tasks[id].id == id
  }

  predicate Begun(r: TaskRecord) {
    r.status != Draft && r.status != Ready
  }

  ghost predicate BegunOnlyAfterDependencies(t: Tables) {
    forall id :: id in t.tasks && Begun(t.tasks[id]) ==>
      t.tasks[id].owner.Some? && DependenciesComplete(t.tasks, t.tasks[id])
  }

  ghost predicate OwnersHaveWorktrees(s: Settings, t: Tables) {
    forall id :: id in t.tasks && t.tasks[id].owner.Some? ==>
      && IsEmployee(s.company.employees, t.tasks[id].owner.value)
      && FindEmployee(s.company.employees, t.tasks[id].owner.value).workspace == GitWorktree
  }

  ghost predicate SubmittedWorkHasEvidence(t: Tables) {
    forall id :: id in t.tasks && t.tasks[id].status in {Review, Completed} ==>
      t.tasks[id].artifacts != [] && t.tasks[id].evidence != []
  }

  ghost predicate LogIsTheRecord(t: Tables) {
    forall id :: Replay(t.log, id) == if id in t.tasks then Some(ViewOf(t.tasks[id])) else None
  }

  ghost predicate RowsMatchRecords(t: Tables) {
    && (forall row :: row in t.dependencyRows <==> row.0 in t.tasks && row.1 in t.tasks[row.0].dependencies)
    && (forall row :: row in t.artifactRows <==>
          && row.0 in t.tasks
          && row.2 in (if row.1.Artifact? then t.tasks[row.0].artifacts else t.tasks[row.0].evidence))
  }

  function ReworkLimit(s: Settings): nat {
    if s.company.limits.maxReviewLoops == 0 then 0 else s.company.limits.maxReviewLoops - 1
  }

  ghost predicate WithinBudgets(s: Settings, t: Tables) {
    forall id ::
      if id in t.tasks then
        && CountRetries(t.log, id) == t.tasks[id].retryCount <= s.company.limits.maxTaskRetry
        && CountReworks(t.log, id) <= t.tasks[id].reviewLoopCount
        && CountReworks(t.log, id) <= ReworkLimit(s)
      else
        CountRetries(t.log, id) == 0 && CountReworks(t.log, id) == 0
  }

  /** Who may have caused an event that needs a permission. */
  ghost predicate Authorized(s: Settings, e: Event) {
    && (e.fact.StatusChanged? && e.fact.next == Completed ==>
          IsEmployee(s.company.employees, e.actorId)
              && FindEmployee(s.company.employees, e.actorId).workspace == ReviewPackage)
    && (e.fact.StatusChanged? && e.fact.next == Running ==>
          IsEmployee(s.company.employees, e.actorId)
              && FindEmployee(s.company.employees, e.actorId).workspace == GitWorktree)
    && (e.fact.Unblocked? ==> e.actorId == OWNER || e.actorId == s.leaderId)
  }

  ghost predicate Invariant(s: Settings, t: Tables) {
    && IdsMatch(t)
    && Acyclic(GraphOf(t.tasks))
    && BegunOnlyAfterDependencies(t)
    && OwnersHaveWorktrees(s, t)
    && SubmittedWorkHasEvidence(t)
    && LogIsTheRecord(t)
    && RowsMatchRecords(t)
    && WithinBudgets(s, t)
    && (forall i :: 0 <= i < |t.log| ==> Authorized(s, t.log[i]))
  }

  // One step.

  /** What a decided write can look like: a new draft, or one legal status change. */
  lemma WrittenRecord(s: Settings, t: Tables, c: Command)
    requires IdsMatch(t) && !c.Note? && Decide(s, t, c).Write?
    ensures var record := Decide(s, t, c).record;
            && record.id == c.taskId
            && (c.Propose? <==> c.taskId !in t.tasks)
            && (c.Propose? ==> record.status == Draft)
            && (!c.Propose? ==>
                  && record.dependencies == t.tasks[c.taskId].dependencies
                  && record.status in LegalTransitions(t.tasks[c.taskId].status))
  {
  }

  lemma PutKeepsGraphAcyclic(s: Settings, t: Tables, c: Command)
    requires IdsMatch(t) && Acyclic(GraphOf(t.tasks)) && !c.Note? && Decide(s, t, c).Write?
    ensures Acyclic(GraphOf(t.tasks[c.taskId := Decide(s, t, c).record]))
  {
    WrittenRecord(s, t, c);
    var before, after := GraphOf(t.tasks), GraphOf(t.tasks[c.taskId := Decide(s, t, c).record]);
    if c.Propose? {
      assert after == before[c.taskId := c.dependencies];
    } else {
      assert after == before;
    }
  }

  lemma WriteKeepsDependenciesFirst(s: Settings, t: Tables, c: Command)
    requires IdsMatch(t) && BegunOnlyAfterDependencies(t) && !c.Note? && Decide(s, t, c).Write?
    ensures BegunOnlyAfterDependencies(Put(t, Decide(s, t, c).record, Decide(s, t, c).events))
  {
    WrittenRecord(s, t, c);
  }

  predicate HasWorktree(s: Settings, owner: Option<EmployeeId>) {
    owner.Some? ==>
      IsEmployee(s.company.employees, owner.value)
          && FindEmployee(s.company.employees, owner.value).workspace == GitWorktree
  }

  lemma WriteKeepsSupport(s: Settings, t: Tables, c: Command)
    requires IdsMatch(t) && OwnersHaveWorktrees(s, t) && SubmittedWorkHasEvidence(t) && !c.Note?
             && Decide(s, t, c).Write?
    ensures var after := Put(t, Decide(s, t, c).record, Decide(s, t, c).events);
            OwnersHaveWorktrees(s, after) && SubmittedWorkHasEvidence(after)
  {
    var record := Decide(s, t, c).record;
    assert HasWorktree(s, record.owner);
    assert record.status in {Review, Completed} ==> record.artifacts != [] && record.evidence != [];
  }

  lemma PutKeepsRows(t: Tables, record: TaskRecord, events: seq<Event>)
    requires RowsMatchRecords(t)
    ensures RowsMatchRecords(Put(t, record, events))
  {
  }

  lemma AppendOne(log: seq<Event>, e: Event, id: TaskId)
    ensures Replay(log + [e], id) == ReplayEvent(Replay(log, id), e, id)
    ensures CountRetries(log + [e], id) == CountRetries(log, id)
              + (if e.taskId == Some(id) && e.fact.RetryScheduled? then 1 else 0)
    ensures CountReworks(log + [e], id) == CountReworks(log, id)
              + (if e.taskId == Some(id) && e.fact.ReworkRequested? then 1 else 0)
    ensures CountExhausted(log + [e], id) ==
            CountExhausted(log, id) + (if e.taskId == Some(id) && e.fact.ReworkExhausted? then 1 else 0)
  {
    assert (log + [e])[..|log|] == log;
  }

  /** Folding the events of one write over a view. */
  function ReplayWrite(view: Option<TaskView>, events: seq<Event>, id: TaskId): Option<TaskView>
    requires |events| in {1, 2}
  {
    var first := ReplayEvent(view, events[0], id);
    if |events| == 1 then first else ReplayEvent(first, events[1], id)
  }

  lemma AppendWrite(log: seq<Event>, events: seq<Event>, id: TaskId)
    requires |events| == 1 || (|events| == 2 && events[1].fact.ReviewRequested?)
    ensures Replay(log + events, id) == ReplayWrite(Replay(log, id), events, id)
    ensures CountRetries(log + events, id) ==
            CountRetries(log, id) + (if events[0].taskId == Some(id) && events[0].fact.RetryScheduled? then 1 else 0)
    ensures CountReworks(log + events, id) ==
            CountReworks(log, id) + (if events[0].taskId == Some(id) && events[0].fact.ReworkRequested? then 1 else 0)
    ensures CountExhausted(log + events, id) ==
            CountExhausted(log, id) + (if events[0].taskId == Some(id) && events[0].fact.ReworkExhausted? then 1 else 0)
  {
    AppendOne(log, events[0], id);
    if |events| == 1 {
      assert events == [events[0]];
    } else {
      assert log + events == (log + [events[0]]) + [events[1]];
      AppendOne(log + [events[0]], events[1], id);
    }
  }

  lemma WrittenEvents(s: Settings, t: Tables, c: Command)
    requires IdsMatch(t) && !c.Note? && Decide(s, t, c).Write?
    ensures var events := Decide(s, t, c).events;
            && (|events| == 1 || (|events| == 2 && events[1].fact.ReviewRequested?))
            && (forall i :: 0 <= i < |events| ==> events[i].taskId == Some(c.taskId) && !events[i].fact.Noted?)
  {
  }

  /** The events of a write say exactly what the record becomes. */
  lemma EventsDescribeTheRecord(s: Settings, t: Tables, c: Command)
    requires IdsMatch(t) && !c.Note? && Decide(s, t, c).Write?
    requires |Decide(s, t, c).events| in {1, 2}
    ensures var view := if c.taskId in t.tasks then Some(ViewOf(t.tasks[c.taskId])) else None;
            ReplayWrite(view, Decide(s, t, c).events, c.taskId) == Some(ViewOf(Decide(s, t, c).record))
  {
  }

  lemma PutKeepsLog(t: Tables, record: TaskRecord, events: seq<Event>)
    requires LogIsTheRecord(t)
    requires |events| == 1 || (|events| == 2 && events[1].fact.ReviewRequested?)
    requires forall i :: 0 <= i < |events| ==> events[i].taskId == Some(record.id)
    requires var view := if record.id in t.tasks then Some(ViewOf(t.tasks[record.id])) else None;
             ReplayWrite(view, events, record.id) == Some(ViewOf(record))
    ensures LogIsTheRecord(Put(t, record, events))
  {
    forall id {
      AppendWrite(t.log, events, id);
    }
  }

  /** What a write adds to the counts of retries and reworks in the log. */
  ghost predicate CountsMove(s: Settings, t: Tables, record: TaskRecord, first: Fact) {
    var retries, reworks := if first.RetryScheduled? then 1 else 0, if first.ReworkRequested? then 1 else 0;
    if record.id in t.tasks then
      var before := t.tasks[record.id];
      && record.retryCount == before.retryCount + retries
      && before.reviewLoopCount + reworks <= record.reviewLoopCount
      && (retries == 1 ==> record.retryCount <= s.company.limits.maxTaskRetry)
      && (reworks == 1 ==> before.reviewLoopCount + 1 <= ReworkLimit(s))
    else retries == 0 && reworks == 0 && record.retryCount == 0 && record.reviewLoopCount == 0
  }

  lemma DecidedCountsMove(s: Settings, t: Tables, c: Command)
    requires IdsMatch(t) && !c.Note? && Decide(s, t, c).Write?
    ensures Decide(s, t, c).events != [] && CountsMove(s, t, Decide(s, t, c).record, Decide(s, t, c).events[0].fact)
  {
  }

  lemma PutKeepsBudgets(s: Settings, t: Tables, record: TaskRecord, events: seq<Event>)
    requires WithinBudgets(s, t)
    requires |events| == 1 || (|events| == 2 && events[1].fact.ReviewRequested?)
    requires events[0].taskId == Some(record.id) && CountsMove(s, t, record, events[0].fact)
    ensures WithinBudgets(s, Put(t, record, events))
  {
    forall id {
      AppendWrite(t.log, events, id);
    }
  }

  lemma WrittenEventsAreAuthorized(s: Settings, t: Tables, c: Command)
    requires IdsMatch(t) && OwnersHaveWorktrees(s, t) && !c.Note? && Decide(s, t, c).Write?
    ensures forall e :: e in Decide(s, t, c).events ==> Authorized(s, e)
  {
  }

  lemma WriteKeepsInvariant(s: Settings, t: Tables, c: Command)
    requires Invariant(s, t) && !c.Note? && Decide(s, t, c).Write?
    ensures Invariant(s, Put(t, Decide(s, t, c).record, Decide(s, t, c).events))
  {
    var record, events := Decide(s, t, c).record, Decide(s, t, c).events;
    WrittenRecord(s, t, c);
    WrittenEvents(s, t, c);
    PutKeepsGraphAcyclic(s, t, c);
    WriteKeepsDependenciesFirst(s, t, c);
    WriteKeepsSupport(s, t, c);
    PutKeepsRows(t, record, events);
    EventsDescribeTheRecord(s, t, c);
    PutKeepsLog(t, record, events);
    DecidedCountsMove(s, t, c);
    PutKeepsBudgets(s, t, record, events);
    WrittenEventsAreAuthorized(s, t, c);
  }

  lemma NoteKeepsInvariant(s: Settings, t: Tables, c: Command)
    requires Invariant(s, t) && c.Note?
    ensures Invariant(s, Perform(s, t, c))
  {
    var event := Event(c.eventId, c.actorId, c.about, Noted(c.kind));
    forall id {
      AppendOne(t.log, event, id);
    }
  }

  /** Every operation keeps everything the tables promise. */
  lemma StepKeepsInvariant(s: Settings, t: Tables, c: Command)
    requires Invariant(s, t)
    ensures Invariant(s, Perform(s, t, c))
  {
    if c.Note? {
      NoteKeepsInvariant(s, t, c);
    } else if Decide(s, t, c).Write? {
      WriteKeepsInvariant(s, t, c);
    }
  }

  lemma EmptyStoreIsFine(s: Settings)
    ensures Invariant(s, EMPTY)
  {
    forall walk
      ensures !IsCycle(GraphOf(EMPTY.tasks), walk)
    {
      if 2 <= |walk| { assert !DependsOn(GraphOf(EMPTY.tasks), walk[0], walk[1]); }
    }
  }

  // The main results, for every run from the empty store.

  ghost function After(s: Settings, commands: seq<Command>): Tables {
    Continue(s, EMPTY, commands)
  }

  lemma {:induction false} EveryRunKeepsInvariant(s: Settings, commands: seq<Command>)
    ensures Invariant(s, After(s, commands))
  {
    if commands == [] {
      EmptyStoreIsFine(s);
    } else {
      EveryRunKeepsInvariant(s, commands[..|commands| - 1]);
      StepKeepsInvariant(s, After(s, commands[..|commands| - 1]), commands[|commands| - 1]);
    }
  }

  lemma StoredGraphIsAcyclic(s: Settings, commands: seq<Command>)
    ensures Acyclic(GraphOf(After(s, commands).tasks))
  {
    EveryRunKeepsInvariant(s, commands);
  }

  lemma EventLogIsTheRecord(s: Settings, commands: seq<Command>, id: TaskId)
    ensures var t := After(s, commands);
            Replay(t.log, id) == if id in t.tasks then Some(ViewOf(t.tasks[id])) else None
  {
    EveryRunKeepsInvariant(s, commands);
  }

  lemma RetriesAndReworksStayWithinLimits(s: Settings, commands: seq<Command>, id: TaskId)
    ensures CountRetries(After(s, commands).log, id) <= s.company.limits.maxTaskRetry
    ensures CountReworks(After(s, commands).log, id) <= ReworkLimit(s)
  {
    EveryRunKeepsInvariant(s, commands);
    var t := After(s, commands);
    assert id in t.tasks || id !in t.tasks;
  }

  lemma {:induction false} WalkIsCompleted(t: Tables, walk: seq<TaskId>, n: nat)
    requires BegunOnlyAfterDependencies(t) && IsWalk(GraphOf(t.tasks), walk) && n < |walk|
    requires walk[0] in t.tasks && Begun(t.tasks[walk[0]])
    ensures n > 0 ==> walk[n] in t.tasks && t.tasks[walk[n]].status == Completed
  {
    if n > 0 {
      WalkIsCompleted(t, walk, n - 1);
      assert DependsOn(GraphOf(t.tasks), walk[n - 1], walk[n]);
      assert walk[n] in t.tasks[walk[n - 1]].dependencies;
    }
  }

  /** A task that is neither draft nor ready has an owner, and everything it
      depends on, directly or not, is completed. */
  lemma BegunTasksHaveEverythingTheyNeed(s: Settings, commands: seq<Command>, id: TaskId)
    requires id in After(s, commands).tasks && Begun(After(s, commands).tasks[id])
    ensures After(s, commands).tasks[id].owner.Some?
    ensures forall d :: DependsTransitively(GraphOf(After(s, commands).tasks), id, d) ==>
                          d in After(s, commands).tasks && After(s, commands).tasks[d].status == Completed
  {
    EveryRunKeepsInvariant(s, commands);
    var t := After(s, commands);
    forall d | DependsTransitively(GraphOf(t.tasks), id, d)
      ensures d in t.tasks && t.tasks[d].status == Completed
    {
      var walk :| 2 <= |walk| && IsWalk(GraphOf(t.tasks), walk) && walk[0] == id && walk[|walk| - 1] == d;
      WalkIsCompleted(t, walk, |walk| - 1);
    }
  }

  lemma {:induction false} CompletedTasksNeverChange(s: Settings, t: Tables, commands: seq<Command>, id: TaskId)
    requires IdsMatch(t) && id in t.tasks && t.tasks[id].status == Completed
    ensures IdsMatch(Continue(s, t, commands))
    ensures id in Continue(s, t, commands).tasks && Continue(s, t, commands).tasks[id] == t.tasks[id]
  {
    if commands != [] {
      CompletedTasksNeverChange(s, t, commands[..|commands| - 1], id);
      var before, c := Continue(s, t, commands[..|commands| - 1]), commands[|commands| - 1];
      if !c.Note? && Decide(s, before, c).Write? {
        WrittenRecord(s, before, c);
      }
    }
  }

  /** No deadlock by dependencies: while work is left and every dependency is a
      stored task, some unfinished task waits for nothing. */
  lemma SomeTaskWaitsForNothing(s: Settings, commands: seq<Command>, unfinished: TaskId) returns (next: TaskId)
    requires var tasks := After(s, commands).tasks;
             && unfinished in tasks && tasks[unfinished].status != Completed
             && forall id, d :: DependsOn(GraphOf(tasks), id, d) ==> d in tasks
    ensures var tasks := After(s, commands).tasks;
            && next in tasks
            && tasks[next].status != Completed
            && DependenciesComplete(tasks, tasks[next])
  {
    EveryRunKeepsInvariant(s, commands);
    var tasks := After(s, commands).tasks;
    var open := set id | id in tasks && tasks[id].status != Completed;
    assert unfinished in open;
    next := AcyclicSetHasASource(GraphOf(tasks), open);
    forall d | d in tasks[next].dependencies
      ensures d in tasks && tasks[d].status == Completed
    {
      assert DependsOn(GraphOf(tasks), next, d);
    }
  }

  // The review loops of a task, which no limit bounds.

  function Min(a: int, b: int): int {
    if a < b then a else b
  }

  /** Every rejection is counted; those below the limit ask for rework, the others
      block the task. */
  predicate CountsRejections(s: Settings, r: TaskRecord, log: seq<Event>) {
    && 0 <= r.reviewLoopCount
    && CountReworks(log, r.id) == Min(r.reviewLoopCount, ReworkLimit(s))
    && CountExhausted(log, r.id) == r.reviewLoopCount - Min(r.reviewLoopCount, ReworkLimit(s))
  }

  ghost predicate RejectionsAreCounted(s: Settings, t: Tables) {
    forall id ::
      if id in t.tasks then t.tasks[id].id == id && CountsRejections(s, t.tasks[id], t.log)
      else CountReworks(t.log, id) == 0 && CountExhausted(t.log, id) == 0
  }

  /** What the first event of a write says about rejections. */
  ghost predicate CountsOneRejection(s: Settings, before: nat, record: TaskRecord, first: Fact) {
    && record.reviewLoopCount == before + (if first.ReworkRequested? || first.ReworkExhausted? then 1 else 0)
    && (first.ReworkRequested? ==> before < ReworkLimit(s))
    && (first.ReworkExhausted? ==> ReworkLimit(s) <= before)
  }

  lemma DecidedCountsRejections(s: Settings, t: Tables, c: Command)
    requires IdsMatch(t) && !c.Note? && Decide(s, t, c).Write?
    requires c.taskId in t.tasks ==> 0 <= t.tasks[c.taskId].reviewLoopCount
    ensures var d := Decide(s, t, c);
            && d.events != []
            && CountsOneRejection(s, if c.taskId in t.tasks then t.tasks[c.taskId].reviewLoopCount
                 else 0, d.record, d.events[0].fact)
  {
  }

  lemma PutCountsRejections(s: Settings, t: Tables, record: TaskRecord, events: seq<Event>)
    requires RejectionsAreCounted(s, t)
    requires |events| == 1 || (|events| == 2 && events[1].fact.ReviewRequested?)
    requires events[0].taskId == Some(record.id)
    requires CountsOneRejection(s, if record.id in t.tasks then t.tasks[record.id].reviewLoopCount
               else 0, record, events[0].fact)
    ensures RejectionsAreCounted(s, Put(t, record, events))
  {
    forall id {
      AppendWrite(t.log, events, id);
    }
  }

  lemma StepCountsRejections(s: Settings, t: Tables, c: Command)
    requires RejectionsAreCounted(s, t)
    ensures RejectionsAreCounted(s, Perform(s, t, c))
  {
    if c.Note? {
      forall id {
        AppendOne(t.log, Event(c.eventId, c.actorId, c.about, Noted(c.kind)), id);
      }
    } else if Decide(s, t, c).Write? {
      assert IdsMatch(t);
      WrittenRecord(s, t, c);
      WrittenEvents(s, t, c);
      DecidedCountsRejections(s, t, c);
      PutCountsRejections(s, t, Decide(s, t, c).record, Decide(s, t, c).events);
    }
  }

  lemma {:induction false} RunCountsRejections(s: Settings, commands: seq<Command>)
    ensures RejectionsAreCounted(s, After(s, commands))
  {
    if commands != [] {
      RunCountsRejections(s, commands[..|commands| - 1]);
      StepCountsRejections(s, After(s, commands[..|commands| - 1]), commands[|commands| - 1]);
    }
  }

  /** After any run, the stored loop count is the number of rejections in the log, and
      it exceeds its limit exactly if the task was blocked by rejections more often
      than the limit allows: twice, or once under a limit of zero. */
  lemma LoopCountExceedsItsLimitExactly(s: Settings, commands: seq<Command>, id: TaskId)
    requires id in After(s, commands).tasks
    ensures var t := After(s, commands);
            && t.tasks[id].reviewLoopCount == CountReworks(t.log, id) + CountExhausted(t.log, id)
            && (t.tasks[id].reviewLoopCount > s.company.limits.maxReviewLoops <==>
                  CountExhausted(t.log, id) > if s.company.limits.maxReviewLoops == 0 then 0 else 1)
  {
    RunCountsRejections(s, commands);
    assert CountsRejections(s, After(s, commands).tasks[id], After(s, commands).log);
  }

  // What the transition table lets through.

  /** A blocked task leaves its state by more than `unblock`: by an assignment, by a
      retry while retries are left and by a rejection while reviews are left. It
      always becomes ready. */
  lemma BlockedTaskLeavesExactly(s: Settings, t: Tables, c: Command)
    requires IdsMatch(t) && !c.Note? && c.taskId in t.tasks && t.tasks[c.taskId].status == Blocked
    ensures var r := t.tasks[c.taskId];
            Decide(s, t, c).Write? <==>
              || (c.Unblock? && (c.actorId == OWNER
                   || (IsEmployee(s.company.employees, c.actorId) && c.actorId == s.leaderId)))
              || (c.Retry? && r.retryCount < s.company.limits.maxTaskRetry)
              || (c.Reject? && c.findings != [] && r.reviewLoopCount + 1 < s.company.limits.maxReviewLoops)
              || (c.Assign? && IsEmployee(s.company.employees, c.employeeId)
                  && FindEmployee(s.company.employees, c.employeeId).workspace == GitWorktree
                  && forall d :: d in r.dependencies ==> d in t.tasks)
    ensures Decide(s, t, c).Write? ==> Decide(s, t, c).record.status == Ready
  {
  }

  ghost predicate Succeeds(s: Settings, t: Tables, c: Command) {
    !c.Note? && Settle(t, Decide(s, t, c)).0.Written?
  }

  predicate IsReadyWithoutOwner(t: Tables, id: TaskId) {
    id in t.tasks && t.tasks[id].status == Ready && t.tasks[id].owner.None?
  }

  /** An unblock, a retry or a rejection of a draft that nobody was assigned. */
  ghost predicate ReadiesUnownedDraft(s: Settings, t: Tables, c: Command, id: TaskId) {
    && (c.Unblock? || c.Retry? || c.Reject?) && c.taskId == id && Succeeds(s, t, c)
    && id in t.tasks && t.tasks[id].status == Draft && t.tasks[id].owner.None?
  }

  /** A task becomes ready without an owner exactly when a draft nobody was assigned
      is unblocked, retried or rejected. */
  lemma ReadyWithoutOwnerExactly(s: Settings, t: Tables, c: Command)
    requires IdsMatch(t) && BegunOnlyAfterDependencies(t) && !c.Note? && Decide(s, t, c).Write?
    ensures var r := Decide(s, t, c).record;
            r.status == Ready && r.owner.None? <==>
              (c.Unblock? || c.Retry? || c.Reject?) && c.taskId in t.tasks && t.tasks[c.taskId].owner.None?
  {
    WrittenRecord(s, t, c);
  }

  /** A ready task without an owner can never be assigned, nor moved in any other way. */
  lemma ReadyWithoutOwnerIsStuck(s: Settings, t: Tables, c: Command, id: TaskId)
    requires IdsMatch(t) && IsReadyWithoutOwner(t, id)
    ensures id in Perform(s, t, c).tasks && Perform(s, t, c).tasks[id] == t.tasks[id]
  {
    if !c.Note? && Decide(s, t, c).Write? {
      WrittenRecord(s, t, c);
    }
  }

  lemma StepMakesReadyWithoutOwnerExactly(s: Settings, t: Tables, c: Command, id: TaskId)
    requires IdsMatch(t) && BegunOnlyAfterDependencies(t)
    ensures IsReadyWithoutOwner(Perform(s, t, c), id) <==>
              IsReadyWithoutOwner(t, id) || ReadiesUnownedDraft(s, t, c, id)
  {
    if IsReadyWithoutOwner(t, id) {
      ReadyWithoutOwnerIsStuck(s, t, c, id);
    } else if !c.Note? && Decide(s, t, c).Write? {
      WrittenRecord(s, t, c);
      ReadyWithoutOwnerExactly(s, t, c);
    }
  }

  lemma EveryRunOrdersWork(s: Settings, commands: seq<Command>)
    ensures IdsMatch(After(s, commands)) && BegunOnlyAfterDependencies(After(s, commands))
  {
    EveryRunKeepsInvariant(s, commands);
  }

  ghost predicate WasReadiedUnowned(s: Settings, commands: seq<Command>, id: TaskId) {
    exists k :: 0 <= k < |commands| && ReadiesUnownedDraft(s, After(s, commands[..k]), commands[k], id)
  }

  lemma OneMoreReadies(s: Settings, before: seq<Command>, c: Command, id: TaskId)
    ensures WasReadiedUnowned(s, before + [c], id) <==>
            WasReadiedUnowned(s, before, id) || ReadiesUnownedDraft(s, After(s, before), c, id)
  {
    var commands := before + [c];
    assert commands[..|before|] == before && commands[|before|] == c;
    forall k | 0 <= k < |before|
      ensures commands[..k] == before[..k] && commands[k] == before[k]
    {
    }
  }

  /** After any run, a task is ready without an owner exactly if at some point of the
      run an unblock, a retry or a rejection of the unassigned draft was written. */
  lemma {:induction false} RunMakesReadyWithoutOwnerExactly(s: Settings, commands: seq<Command>, id: TaskId)
    ensures IsReadyWithoutOwner(After(s, commands), id) <==> WasReadiedUnowned(s, commands, id)
  {
    if commands != [] {
      var last := |commands| - 1;
      var before := commands[..last];
      RunMakesReadyWithoutOwnerExactly(s, before, id);
      EveryRunOrdersWork(s, before);
      StepMakesReadyWithoutOwnerExactly(s, After(s, before), commands[last], id);
      OneMoreReadies(s, before, commands[last], id);
      assert commands == before + [commands[last]];
    }
  }

  // Runs in which it happens.

  lemma LoneTaskIsAcyclic(id: TaskId)
    ensures Acyclic(GraphOf(EMPTY.tasks)[id := []])
  {
    var graph := GraphOf(EMPTY.tasks)[id := []];
    forall walk
      ensures !IsCycle(graph, walk)
    {
      if 2 <= |walk| { assert !DependsOn(graph, walk[0], walk[1]); }
    }
  }

  lemma Then(s: Settings, commands: seq<Command>, c: Command) returns (more: seq<Command>)
    ensures more == commands + [c] && After(s, more) == Perform(s, After(s, commands), c)
  {
    more := commands + [c];
    assert more[..|commands|] == commands;
  }

  /** In every company, the owner can make a draft ready that nobody was assigned. */
  lemma UnassignedDraftBecomesReady(s: Settings, id: TaskId) returns (commands: seq<Command>)
    ensures IsReadyWithoutOwner(After(s, commands), id)
  {
    LoneTaskIsAcyclic(id);
    commands := Then(s, [], Propose(id, "", "", [], [], "a"));
    commands := Then(s, commands, Unblock(id, OWNER, "b"));
  }

  ghost predicate IsLoneTask(t: Tables, id: TaskId, worker: EmployeeId, status: TaskStatus, ids: set<EventId>) {
    && t.tasks.Keys == {id}
    && (forall r :: r in t.tasks.Values ==>
          (r.id, r.status, r.owner, r.dependencies, r.artifacts, r.evidence) == (id, status, Some(worker), [], [], []))
    && (forall i :: 0 <= i < |t.log| ==> t.log[i].id in ids)
  }

  predicate IsWorker(s: Settings, worker: EmployeeId) {
    IsEmployee(s.company.employees, worker) && FindEmployee(s.company.employees, worker).workspace == GitWorktree
  }

  lemma LoneTaskIsAssigned(s: Settings, id: TaskId, worker: EmployeeId)
    requires IsWorker(s, worker)
    ensures IsLoneTask(Perform(s, Perform(s, EMPTY, Propose(id, "", "", [], [], "a")), Assign(id, worker, "b")), id,
              worker, Ready, {"a", "b"})
  {
    LoneTaskIsAcyclic(id);
  }

  lemma LoneTaskMoves(s: Settings, t: Tables, id: TaskId, worker: EmployeeId, c: Command, ids: set<EventId>)
    requires IsWorker(s, worker) && c.eventId !in ids && CanMove(c, t, id, worker, ids)
    ensures IsLoneTask(Perform(s, t, c), id, worker, if c.Assign? then Ready else c.next, ids + {c.eventId})
  {
    var r, events := Decide(s, t, c).record, Decide(s, t, c).events;
    assert |events| == 1 && events[0].id == c.eventId;
    assert FreshIds(t.log, events);
    assert r.dependencies == [] && r.artifacts == [] && r.evidence == [];
    forall i | 0 <= i < |t.log + events|
      ensures (t.log + events)[i].id in ids + {c.eventId}
    {
      assert i < |t.log| ==> t.log[i].id in ids;
    }
  }

  ghost predicate CanMove(c: Command, t: Tables, id: TaskId, worker: EmployeeId, ids: set<EventId>) {
    || (c == Transition(id, Running, worker, c.eventId) && IsLoneTask(t, id, worker, Ready, ids))
    || (c == Transition(id, Blocked, worker, c.eventId) && IsLoneTask(t, id, worker, Running, ids))
    || (c == Assign(id, worker, c.eventId) && IsLoneTask(t, id, worker, Blocked, ids))
  }

  lemma LoneTaskGoesOn(s: Settings, commands: seq<Command>, id: TaskId, worker: EmployeeId, c: Command,
                       ids: set<EventId>) returns (more: seq<Command>)
    requires IsWorker(s, worker) && c.eventId !in ids && CanMove(c, After(s, commands), id, worker, ids)
    ensures more == commands + [c]
    ensures IsLoneTask(After(s, more), id, worker, if c.Assign? then Ready else c.next, ids + {c.eventId})
  {
    LoneTaskMoves(s, After(s, commands), id, worker, c, ids);
    more := Then(s, commands, c);
  }

  lemma LoneTaskIsBlocked(s: Settings, id: TaskId, worker: EmployeeId) returns (commands: seq<Command>)
    requires IsWorker(s, worker)
    ensures IsLoneTask(After(s, commands), id, worker, Blocked, {"a", "b"} + {"c"} + {"d"})
  {
    LoneTaskIsAssigned(s, id, worker);
    commands := Then(s, [], Propose(id, "", "", [], [], "a"));
    commands := Then(s, commands, Assign(id, worker, "b"));
    commands := LoneTaskGoesOn(s, commands, id, worker, Transition(id, Running, worker, "c"), {"a", "b"});
    commands := LoneTaskGoesOn(s, commands, id, worker, Transition(id, Blocked, worker, "d"), {"a", "b"} + {"c"});
  }

  /** A blocked task that leaves by an assignment, in every company with an employee
      who has a worktree. */
  lemma BlockedTaskIsAssigned(s: Settings, id: TaskId, worker: EmployeeId)
    returns (commands: seq<Command>, assign: Command)
    requires IsWorker(s, worker)
    ensures var t := After(s, commands); id in t.tasks && t.tasks[id].status == Blocked
    ensures var t := After(s, commands + [assign]);
            assign.Assign? && id in t.tasks && t.tasks[id].status == Ready && t.tasks[id].owner == Some(worker)
  {
    assign := Assign(id, worker, "e");
    commands := LoneTaskIsBlocked(s, id, worker);
    var more := LoneTaskGoesOn(s, commands, id, worker, assign, {"a", "b"} + {"c"} + {"d"});
  }

  // Review loops grow without bound.

  /** A stored task of `worker` that was rejected `loops` times; event ids of length
      `n` are new. */
  ghost predicate IsLooping(t: Tables, id: TaskId, worker: EmployeeId, status: TaskStatus, loops: nat, n: nat) {
    && t.tasks.Keys == {id}
    && (forall r :: r in t.tasks.Values ==>
          && (r.id, r.status, r.owner, r.reviewLoopCount) == (id, status, Some(worker), loops)
          && (r.dependencies, r.artifacts, r.evidence) == ([], [], []))
    && (forall i :: 0 <= i < |t.log| ==> |t.log[i].id| < n)
  }

  function NewId(n: nat): EventId {
    seq(n, _ => 'x')
  }

  /** What a step of the loop makes of the task. */
  function LoopStep(s: Settings, worker: EmployeeId, status: TaskStatus, loops: nat, c: Command): Option<(TaskStatus,
                    nat)> {
    var last := s.company.limits.maxReviewLoops <= loops + 1;
    match (status, c)
    case (Ready, Transition(_, Running, actorId, _)) => if actorId == worker then Some((Running, loops)) else None
    case (Running, Transition(_, Blocked, actorId, _)) => if actorId == worker then Some((Blocked, loops)) else None
    case (Running, Reject(_, _, findings, _)) => if last && findings != [] then Some((Blocked, loops + 1)) else None
    case (Blocked, Reject(_, _, findings, _)) => if !last && findings != [] then Some((Ready, loops + 1)) else None
    case (Blocked, Unblock(_, actorId, _)) => if actorId == OWNER then Some((Ready, loops)) else None
    case _ => None
  }

  lemma LoopingMoves(s: Settings, t: Tables, id: TaskId, worker: EmployeeId, status: TaskStatus, loops: nat, n: nat,
                     c: Command)
    requires IsWorker(s, worker) && IsLooping(t, id, worker, status, loops, n)
    requires LoopStep(s, worker, status, loops, c).Some? && c.taskId == id && c.eventId == NewId(n)
    ensures var next := LoopStep(s, worker, status, loops, c).value;
            IsLooping(Perform(s, t, c), id, worker, next.0, next.1, n + 1)
  {
    var r, events := Decide(s, t, c).record, Decide(s, t, c).events;
    assert |events| == 1 && events[0].id == NewId(n);
    assert FreshIds(t.log, events);
    forall i | 0 <= i < |t.log + events|
      ensures |(t.log + events)[i].id| < n + 1
    {
      assert i < |t.log| ==> |t.log[i].id| < n;
    }
  }

  lemma LoopGoesOn(s: Settings, commands: seq<Command>, id: TaskId, worker: EmployeeId, status: TaskStatus,
                   loops: nat, n: nat, c: Command)
    returns (more: seq<Command>)
    requires IsWorker(s, worker) && IsLooping(After(s, commands), id, worker, status, loops, n)
    requires LoopStep(s, worker, status, loops, c).Some? && c.taskId == id && c.eventId == NewId(n)
    ensures var next := LoopStep(s, worker, status, loops, c).value;
            IsLooping(After(s, more), id, worker, next.0, next.1, n + 1)
  {
    LoopingMoves(s, After(s, commands), id, worker, status, loops, n, c);
    more := Then(s, commands, c);
  }

  lemma LoopBegins(s: Settings, id: TaskId, worker: EmployeeId) returns (commands: seq<Command>)
    requires IsWorker(s, worker)
    ensures IsLooping(After(s, commands), id, worker, Ready, 0, 2)
  {
    LoneTaskIsAcyclic(id);
    commands := Then(s, [], Propose(id, "", "", [], [], NewId(0)));
    commands := Then(s, commands, Assign(id, worker, NewId(1)));
  }

  lemma OneLoopMore(s: Settings, commands: seq<Command>, id: TaskId, worker: EmployeeId, loops: nat, n: nat)
    returns (more: seq<Command>)
    requires IsWorker(s, worker) && IsLooping(After(s, commands), id, worker, Running, loops, n)
    ensures IsLooping(After(s, more), id, worker, Ready, loops + 1, n + 2)
  {
    if s.company.limits.maxReviewLoops <= loops + 1 {
      more := LoopGoesOn(s, commands, id, worker, Running, loops, n, Reject(id, OWNER, [""], NewId(n)));
      more := LoopGoesOn(s, more, id, worker, Blocked, loops + 1, n + 1, Unblock(id, OWNER, NewId(n + 1)));
    } else {
      more := LoopGoesOn(s, commands, id, worker, Running, loops, n, Transition(id, Blocked, worker, NewId(n)));
      more := LoopGoesOn(s, more, id, worker, Blocked, loops, n + 1, Reject(id, OWNER, [""], NewId(n + 1)));
    }
  }

  /** In every company with an employee who has a worktree, a task can be rejected any
      number of times: below the limit while it is blocked, above it by unblocking. */
  lemma {:induction false} ReviewLoopsAreUnbounded(s: Settings, id: TaskId, worker: EmployeeId, loops: nat)
    returns (commands: seq<Command>, n: nat)
    requires IsWorker(s, worker)
    ensures IsLooping(After(s, commands), id, worker, Running, loops, n)
  {
    if loops == 0 {
      commands := LoopBegins(s, id, worker);
      n := 2;
    } else {
      commands, n := ReviewLoopsAreUnbounded(s, id, worker, loops - 1);
      commands := OneLoopMore(s, commands, id, worker, loops - 1, n);
      n := n + 2;
    }
    commands := LoopGoesOn(s, commands, id, worker, Ready, loops, n, Transition(id, Running, worker, NewId(n)));
    n := n + 1;
  }

  // The energy of a task: what it can still do before someone intervenes.

  function Rank(status: TaskStatus): nat {
    match status
    case Draft => 3
    case Ready => 3
    case Running => 2
    case Review => 1
    case Failed => 1
    case Completed => 0
    case Blocked => 0
  }

  function Left(limit: int, used: int): nat {
    if used < limit then limit - used else 0
  }

  function Energy(s: Settings, r: TaskRecord): nat {
    4 * (Left(s.company.limits.maxTaskRetry, r.retryCount) + Left(s.company.limits.maxReviewLoops, r.reviewLoopCount))
        + Rank(r.status)
  }

  predicate Intervention(c: Command, id: TaskId) {
    (c.Assign? || c.Unblock?) && c.taskId == id
  }

  ghost predicate ChangesStatus(s: Settings, t: Tables, c: Command, id: TaskId) {
    id in t.tasks && id in Perform(s, t, c).tasks && Perform(s, t, c).tasks[id].status != t.tasks[id].status
  }

  lemma WriteSpendsEnergy(s: Settings, t: Tables, c: Command)
    requires IdsMatch(t) && !c.Note? && !c.Propose? && Decide(s, t, c).Write?
    ensures var before, after := t.tasks[c.taskId], Decide(s, t, c).record;
            && after.status != before.status
            && Energy(s, after) <= Energy(s, before) + (if Intervention(c, c.taskId) then 3 else -1)
  {
  }

  lemma StepSpendsEnergy(s: Settings, t: Tables, c: Command, id: TaskId)
    requires IdsMatch(t) && id in t.tasks
    ensures IdsMatch(Perform(s, t, c)) && id in Perform(s, t, c).tasks
    ensures !Intervention(c, id) && ChangesStatus(s, t, c, id) ==>
              Energy(s, Perform(s, t, c).tasks[id]) < Energy(s, t.tasks[id])
    ensures !ChangesStatus(s, t, c, id) ==> Perform(s, t, c).tasks[id] == t.tasks[id]
    ensures Energy(s, Perform(s, t, c).tasks[id]) <= Energy(s, t.tasks[id]) + (if Intervention(c, id) then 3 else 0)
  {
    if !c.Note? && Decide(s, t, c).Write? {
      WrittenRecord(s, t, c);
      if !c.Propose? {
        WriteSpendsEnergy(s, t, c);
      }
      PutChangesOne(t, Decide(s, t, c).record, Decide(s, t, c).events, id);
    }
  }

  lemma PutChangesOne(t: Tables, record: TaskRecord, events: seq<Event>, id: TaskId)
    requires IdsMatch(t) && id in t.tasks
    ensures IdsMatch(Put(t, record, events)) && id in Put(t, record, events).tasks
    ensures Put(t, record, events).tasks[id] == if id == record.id then record else t.tasks[id]
  {
  }

  ghost function StatusChanges(s: Settings, t: Tables, commands: seq<Command>, id: TaskId): nat {
    if commands == [] then 0
    else
      var before := Continue(s, t, commands[..|commands| - 1]);
      StatusChanges(s, t, commands[..|commands| - 1], id)
      + (if ChangesStatus(s, before, commands[|commands| - 1], id) then 1 else 0)
  }

  function Interventions(commands: seq<Command>, id: TaskId): nat {
    if commands == [] then 0
    else Interventions(commands[..|commands| - 1], id) + (if Intervention(commands[|commands| - 1], id) then 1 else 0)
  }

  /** Without interventions a task can change status at most `Energy` times; each
      assignment or unblocking buys at most four more changes. */
  lemma {:induction false} StatusChangesAreBounded(s: Settings, t: Tables, commands: seq<Command>, id: TaskId)
    requires IdsMatch(t) && id in t.tasks
    ensures IdsMatch(Continue(s, t, commands)) && id in Continue(s, t, commands).tasks
    ensures StatusChanges(s, t, commands, id) + Energy(s, Continue(s, t, commands).tasks[id])
            <= Energy(s, t.tasks[id]) + 4 * Interventions(commands, id)
  {
    if commands != [] {
      StatusChangesAreBounded(s, t, commands[..|commands| - 1], id);
      StepSpendsEnergy(s, Continue(s, t, commands[..|commands| - 1]), commands[|commands| - 1], id);
    }
  }
}
