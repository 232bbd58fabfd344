/**
 What the task operations write, judged by the event log alone: who may cause
 which event when, and which event a command asks for.
 */
module TaskHistory {
  import opened Company
  import opened TaskGraph
  import opened TaskModel
  import opened TaskRuns
  import opened Wrappers

  // The rules of the task workflow.

  predicate CanBecomeReady(status: TaskStatus) {
    status == Draft || status == Review || status == Blocked || status == Failed
  }

  predicate CanBeGivenUp(status: TaskStatus) {
    status == Running || status == Review || status == Failed
  }

  ghost predicate IsCompleted(log: seq<Event>, id: TaskId) {
    Replay(log, id).Some? && Replay(log, id).value.status == Completed
  }

  predicate IsReviewer(s: Settings, employee: EmployeeId) {
    IsEmployee(s.company.employees, employee)
        && FindEmployee(s.company.employees, employee).workspace == ReviewPackage
  }

  /** The status changes that an employee may cause without an operation of their own. */
  ghost predicate MayMove(s: Settings, log: seq<Event>, view: TaskView, dependencies: seq<TaskId>, actor: EmployeeId,
                          next: TaskStatus) {
    && IsEmployee(s.company.employees, actor)
    && match next
       case Running =>
         view.status == Ready && view.owner == Some(actor) && forall d :: d in dependencies ==> IsCompleted(log, d)
       case Completed =>
         view.status == Review && IsReviewer(s, actor) && view.artifacts != [] && view.evidence != []
       case Blocked => view.status == Running
       case Failed => view.status == Running
       case _ => false
  }

  /** The event `e`, about a task with these dependencies, is allowed after the log. */
  ghost predicate IsPermitted(s: Settings, log: seq<Event>, dependencies: seq<TaskId>, e: Event) {
    && e.taskId.Some?
    && var view := Replay(log, e.taskId.value);
       if e.fact.Created? then view == None && e.actorId == "core"
       else view.Some? && IsPermittedOf(s, log, dependencies, view.value, e)
  }

  ghost predicate IsPermittedOf(s: Settings, log: seq<Event>, dependencies: seq<TaskId>, v: TaskView, e: Event) {
    match e.fact
    case Created => false
    case Assigned(assignee) =>
      && e.actorId == "core" && CanBecomeReady(v.status) && IsWorker(s, assignee)
      && forall d :: d in dependencies ==> Replay(log, d).Some?
    case StatusChanged(previous, next) =>
      previous == v.status && MayMove(s, log, v, dependencies, e.actorId, next)
    case Submitted(artifacts, evidence) =>
      v.status == Running && v.owner == Some(e.actorId) && artifacts != [] && evidence != []
    case ReviewRequested(_) => false  // comes with a submission only
    case RetryScheduled(n) =>
      CanBecomeReady(v.status) && n == v.retryCount + 1 && n <= s.company.limits.maxTaskRetry
    case RetryExhausted(n) =>
      CanBeGivenUp(v.status) && n == v.retryCount && s.company.limits.maxTaskRetry <= n
    case ReworkRequested(findings, n) =>
      CanBecomeReady(v.status) && findings != [] && n == v.reviewLoopCount + 1 && n < s.company.limits.maxReviewLoops
    case ReworkExhausted(findings, n) =>
      CanBeGivenUp(v.status) && findings != [] && n == v.reviewLoopCount + 1 && s.company.limits.maxReviewLoops <= n
    case Unblocked(previous, retries, loops) =>
      && previous == v.status && CanBecomeReady(v.status) && retries == v.retryCount && loops == v.reviewLoopCount
      && (e.actorId == OWNER || (e.actorId == s.leaderId && IsEmployee(s.company.employees, e.actorId)))
    case Noted(_) => false
  }

  /** The event is one that the command asks for. */
  predicate AsksFor(c: Command, e: Event)
    requires !c.Note?
  {
    && e.id == c.eventId && e.taskId == Some(c.taskId)
    && match c
       case Propose(_, _, _, _, _, _) => e.fact == Created && e.actorId == "core"
       case Assign(_, employeeId, _) => e.fact == Assigned(employeeId) && e.actorId == "core"
       case Transition(_, next, actorId, _) => e.actorId == actorId && e.fact.StatusChanged? && e.fact.next == next
       case Submit(_, actorId, artifacts, evidence, _, _) =>
         e.actorId == actorId && e.fact == Submitted(artifacts, evidence)
       case Retry(_, actorId, _) => e.actorId == actorId && (e.fact.RetryScheduled? || e.fact.RetryExhausted?)
       case Reject(_, actorId, findings, _) =>
         e.actorId == actorId && (e.fact.ReworkRequested? || e.fact.ReworkExhausted?) && e.fact.findings == findings
       case Unblock(_, actorId, _) => e.actorId == actorId && e.fact.Unblocked?
  }

  /** The events of a write: the one asked for, and the review that a submission requests. */
  function EventsOf(c: Command, e: Event): seq<Event>
    requires !c.Note?
  {
    if c.Submit? then [e, Event(c.reviewId, c.actorId, Some(c.taskId), ReviewRequested(c.eventId))] else [e]
  }

  /** Nothing in the store stands against the write itself: the event ids are new, no
      list repeats a value, and a new task closes no cycle. */
  ghost predicate IsStorable(t: Tables, c: Command)
    requires !c.Note?
  {
    && (forall i :: 0 <= i < |t.log| ==> t.log[i].id != c.eventId)
    && (c.Propose? ==> Distinct(c.dependencies) && Acyclic(GraphOf(t.tasks)[c.taskId := c.dependencies]))
    && (c.Submit? ==> Distinct(c.artifacts) && Distinct(c.evidence) && c.reviewId != c.eventId
                      && forall i :: 0 <= i < |t.log| ==> t.log[i].id != c.reviewId)
  }

  function DependenciesOf(t: Tables, id: TaskId): seq<TaskId> {
    if id in t.tasks then t.tasks[id].dependencies else []
  }

  // Each operation follows the rules.

  ghost predicate IsHistory(t: Tables) {
    IdsMatch(t) && LogIsTheRecord(t)
  }

  lemma DecidedIsAskedFor(s: Settings, t: Tables, c: Command)
    requires IdsMatch(t) && !c.Note? && Decide(s, t, c).Write?
    ensures var events := Decide(s, t, c).events;
            events != [] && AsksFor(c, events[0]) && events == EventsOf(c, events[0])
  {
  }

  lemma TransitionIsPermitted(s: Settings, t: Tables, c: Command)
    requires IsHistory(t) && c.Transition? && Decide(s, t, c).Write?
    ensures IsPermitted(s, t.log, DependenciesOf(t, c.taskId), Decide(s, t, c).events[0])
  {
    var record := t.tasks[c.taskId];
    if c.next == Running {
      forall d | d in record.dependencies
        ensures IsCompleted(t.log, d)
      {
        assert d in t.tasks && Replay(t.log, d) == Some(ViewOf(t.tasks[d]));
      }
    }
  }

  lemma DecidedIsPermitted(s: Settings, t: Tables, c: Command)
    requires IsHistory(t) && !c.Note? && Decide(s, t, c).Write? && Decide(s, t, c).events != []
    ensures IsPermitted(s, t.log, DependenciesOf(t, c.taskId), Decide(s, t, c).events[0])
  {
    if c.Transition? {
      TransitionIsPermitted(s, t, c);
    }
  }

  lemma PermittedIsDecided(s: Settings, t: Tables, c: Command, e: Event)
    requires IsHistory(t) && !c.Note? && AsksFor(c, e) && IsStorable(t, c)
    requires IsPermitted(s, t.log, DependenciesOf(t, c.taskId), e)
    ensures Decide(s, t, c).Write? && Decide(s, t, c).events == EventsOf(c, e)
  {
  }

  ghost predicate StoredCanBePut(t: Tables) {
    forall id :: id in t.tasks ==>
        Distinct(t.tasks[id].dependencies) && Distinct(t.tasks[id].artifacts) && Distinct(t.tasks[id].evidence)
  }

  lemma StoredStaysPuttable(s: Settings, t: Tables, c: Command)
    requires IdsMatch(t) && StoredCanBePut(t)
    ensures StoredCanBePut(Perform(s, t, c))
  {
    if !c.Note? && Decide(s, t, c).Write? {
      WrittenRecord(s, t, c);
    }
  }

  lemma {:induction false} RunCanBePut(s: Settings, commands: seq<Command>)
    ensures StoredCanBePut(After(s, commands)) && IsHistory(After(s, commands))
  {
    EveryRunKeepsInvariant(s, commands);
    if commands != [] {
      var last := |commands| - 1;
      RunCanBePut(s, commands[..last]);
      StoredStaysPuttable(s, After(s, commands[..last]), commands[last]);
    }
  }

  lemma EventsAreFresh(log: seq<Event>, c: Command, e: Event)
    requires !c.Note? && e.id == c.eventId
    ensures FreshIds(log, EventsOf(c, e)) <==>
              && (forall i :: 0 <= i < |log| ==> log[i].id != c.eventId)
              && (c.Submit? ==> c.reviewId != c.eventId && forall i :: 0 <= i < |log| ==> log[i].id != c.reviewId)
  {
    var events := EventsOf(c, e);
    assert events[0].id == c.eventId && (c.Submit? ==> events[1].id == c.reviewId);
    if FreshIds(log, events) {
      assert forall i :: 0 <= i < |log| ==> events[0].id != log[i].id;
      assert forall i :: 0 <= i < |log| && c.Submit? ==> events[1].id != log[i].id;
    }
  }

  lemma DecidedCanBePut(s: Settings, t: Tables, c: Command, e: Event)
    requires IsHistory(t) && StoredCanBePut(t) && !c.Note? && Decide(s, t, c).Write?
    requires e.id == c.eventId && Decide(s, t, c).events == EventsOf(c, e)
    ensures CanPut(t, Decide(s, t, c).record, Decide(s, t, c).events) <==> IsStorable(t, c)
  {
    EventsAreFresh(t.log, c, e);
    if c.Propose? {
      assert Decide(s, t, c).record.dependencies == c.dependencies;
    } else {
      assert Decide(s, t, c).record.dependencies == t.tasks[c.taskId].dependencies;
    }
  }

  // The main results.

  /** The command gets its event written: one that it asks for and that is permitted now. */
  ghost predicate IsGranted(s: Settings, t: Tables, c: Command, e: Event)
    requires !c.Note?
  {
    AsksFor(c, e) && IsPermitted(s, t.log, DependenciesOf(t, c.taskId), e) && IsStorable(t, c)
  }

  /** After any run a command is carried out exactly if an event it asks for is
      permitted by what the log says so far, and nothing in the store stands against
      the write; then that event is written, and the review that a submission
      requests, and nothing else. */
  lemma CommandsAreGrantedExactly(s: Settings, commands: seq<Command>, c: Command)
    requires !c.Note?
    ensures var t := After(s, commands);
            var t' := Perform(s, t, c);
            && (forall e :: IsGranted(s, t, c, e) ==> t'.log == t.log + EventsOf(c, e))
            && ((forall e :: !IsGranted(s, t, c, e)) ==> t' == t)
  {
    var t := After(s, commands);
    RunCanBePut(s, commands);
    if Decide(s, t, c).Write? {
      DecidedIsAskedFor(s, t, c);
      DecidedIsPermitted(s, t, c);
      var e := Decide(s, t, c).events[0];
      DecidedCanBePut(s, t, c, e);
      assert CanPut(t, Decide(s, t, c).record, Decide(s, t, c).events) ==> IsGranted(s, t, c, e);
    }
    forall e | IsGranted(s, t, c, e)
      ensures Perform(s, t, c).log == t.log + EventsOf(c, e)
    {
      PermittedIsDecided(s, t, c, e);
      DecidedCanBePut(s, t, c, e);
    }
  }

  /** What a task is for never changes: it is what the first accepted proposal said. */
  ghost predicate IsDescribedBy(record: TaskRecord, c: Command) {
    && c.Propose? && record.id == c.taskId && record.title == c.title && record.objective == c.objective
    && record.dependencies == c.dependencies && record.acceptanceCriteria == c.criteria
  }

  ghost predicate Creates(s: Settings, t: Tables, c: Command, id: TaskId) {
    id !in t.tasks && id in Perform(s, t, c).tasks
  }

  predicate HaveOneDescription(a: TaskRecord, b: TaskRecord) {
    && a.id == b.id && a.title == b.title && a.objective == b.objective
    && a.dependencies == b.dependencies && a.acceptanceCriteria == b.acceptanceCriteria
  }

  lemma DecidedKeepsDescription(s: Settings, t: Tables, c: Command)
    requires IdsMatch(t) && !c.Note? && Decide(s, t, c).Write?
    ensures var record := Decide(s, t, c).record;
            && record.id == c.taskId
            && if c.taskId in t.tasks then HaveOneDescription(record, t.tasks[c.taskId]) else IsDescribedBy(record, c)
  {
  }

  lemma StepKeepsDescription(s: Settings, t: Tables, c: Command, id: TaskId)
    requires IdsMatch(t) && id in Perform(s, t, c).tasks
    ensures var record := Perform(s, t, c).tasks[id];
            if id in t.tasks then HaveOneDescription(record, t.tasks[id]) else IsDescribedBy(record, c)
  {
    if !c.Note? && Decide(s, t, c).Write? {
      DecidedKeepsDescription(s, t, c);
    }
  }

  /** After any run, a stored task is described by the one proposal that created it. */
  lemma {:induction false} DescriptionsNeverChange(s: Settings, commands: seq<Command>, id: TaskId) returns (k: nat)
    requires id in After(s, commands).tasks
    ensures k < |commands| && Creates(s, After(s, commands[..k]), commands[k], id)
    ensures IsDescribedBy(After(s, commands).tasks[id], commands[k])
  {
    var last := |commands| - 1;
    EveryRunKeepsInvariant(s, commands[..last]);
    StepKeepsDescription(s, After(s, commands[..last]), commands[last], id);
    if id in After(s, commands[..last]).tasks {
      k := DescriptionsNeverChange(s, commands[..last], id);
      assert commands[..last][..k] == commands[..k];
    } else {
      k := last;
    }
  }
}
