/**
 What the orchestrator keeps in flight is really under way: a task that is in
 flight has a process of its own, and the entry goes when the process ends.
 */
module UnderWay {
  import opened Company
  import opened TaskGraph
  import opened TaskModel
  import opened TaskRuns
  import opened Orchestrator
  import opened Wrappers
  import Drivers

  /** A frame that nobody waits for. */
  predicate IsRoot(f: Frame) {
    f.kind == InFlight || f.kind == Recovery || f.kind == Outside
  }

  predicate IsRooted(stack: Stack) {
    stack.On? && if stack.below.NoFrame? then IsRoot(stack.top) else !IsRoot(stack.top) && IsRooted(stack.below)
  }

  function RootOf(stack: Stack): Frame
    requires IsRooted(stack)
  {
    if stack.below.NoFrame? then stack.top else RootOf(stack.below)
  }

  predicate HaveOneRoot(a: Stack, b: Stack) {
    IsRooted(a) && IsRooted(b) && RootOf(a).kind == RootOf(b).kind && RootOf(a).taskId == RootOf(b).taskId
  }

  /** No frame is of a later epoch. */
  predicate IsUpTo(stack: Stack, epoch: nat) {
    stack.On? ==> stack.top.epoch <= epoch && IsUpTo(stack.below, epoch)
  }

  lemma {:induction false} IsUpToLater(stack: Stack, epoch: nat, later: nat)
    requires IsUpTo(stack, epoch) && epoch <= later
    ensures IsUpTo(stack, later)
  {
    if stack.On? {
      IsUpToLater(stack.below, epoch, later);
    }
  }

  /** Process `pid` is under way for a task. */
  predicate IsFor(w: World, pid: nat, id: TaskId) {
    && pid in w.processes && IsRooted(w.processes[pid])
    && RootOf(w.processes[pid]).kind != Outside && RootOf(w.processes[pid]).taskId == id
  }

  ghost predicate ProcessesAreRooted(w: World) {
    forall pid :: pid in w.processes ==>
        pid < w.nextProcess && IsRooted(w.processes[pid]) && IsUpTo(w.processes[pid], w.epoch)
  }

  ghost predicate FlightsAreUnderWay(w: World) {
    forall id :: id in w.inFlight ==> IsFor(w, w.inFlight[id], id)
  }

  ghost predicate Invariant(w: World) {
    ProcessesAreRooted(w) && FlightsAreUnderWay(w)
  }

  // The changes of one process.

  lemma StackChanges(w: World, pid: nat, stack: Stack)
    requires Invariant(w) && pid in w.processes && HaveOneRoot(w.processes[pid], stack) && IsUpTo(stack, w.epoch)
    ensures Invariant(w.(processes := w.processes[pid := stack]))
  {
    var w' := w.(processes := w.processes[pid := stack]);
    forall id | id in w.inFlight
      ensures IsFor(w', w.inFlight[id], id)
    {
      assert IsFor(w, w.inFlight[id], id);
    }
  }

  /** The frame on top of a process goes on, maybe under a frame it calls. */
  lemma TopGoesOn(stack: Stack, f: Frame)
    requires IsRooted(stack) && IsRoot(f) == IsRoot(stack.top)
    requires IsRoot(f) ==> f.kind == stack.top.kind && f.taskId == stack.top.taskId
    ensures HaveOneRoot(stack, On(f, stack.below))
    ensures forall callee: Frame {:trigger On(callee, On(f, stack.below))} ::
              !IsRoot(callee) ==> HaveOneRoot(stack, On(callee, On(f, stack.below)))
  {
    assert IsRooted(On(f, stack.below));
  }

  lemma TopMoves(w: World, pid: nat, f: Frame)
    requires Invariant(w) && HasTop(w, pid) && IsRoot(f) == IsRoot(Top(w, pid)) && f.epoch <= w.epoch
    requires IsRoot(f) ==> f.kind == Top(w, pid).kind && f.taskId == Top(w, pid).taskId
    ensures Invariant(SetTop(w, pid, f))
  {
    TopGoesOn(w.processes[pid], f);
    StackChanges(w, pid, On(f, w.processes[pid].below));
  }

  /** A frame that somebody waits for is done. */
  lemma TopEnds(w: World, pid: nat, failed: bool)
    requires Invariant(w) && HasTop(w, pid) && !IsRoot(Top(w, pid))
    ensures Invariant(Complete(w, pid, failed))
  {
    var caller, below := w.processes[pid].below.top, w.processes[pid].below.below;
    assert IsUpTo(w.processes[pid].below, w.epoch);
    TopGoesOn(w.processes[pid].below, caller.(phase := Returned(failed)));
    StackChanges(w, pid, On(caller.(phase := Returned(failed)), below));
  }

  lemma ProcessStarts(w: World, taskId: TaskId, stack: Stack)
    requires Invariant(w) && IsRooted(stack) && RootOf(stack).kind != Outside && RootOf(stack).taskId == taskId
    requires IsUpTo(stack, w.epoch)
    ensures Invariant(Start(w, taskId, stack))
  {
    var w' := Start(w, taskId, stack);
    forall id | id in w'.inFlight
      ensures IsFor(w', w'.inFlight[id], id)
    {
      assert id == taskId || IsFor(w, w.inFlight[id], id);
    }
  }

  lemma FlightStarts(r: Roles, w: World, taskId: TaskId)
    requires Invariant(w)
    ensures Invariant(StartInFlight(r, w, taskId))
  {
    var root := Frame(InFlight, taskId, w.epoch, "", false, Calling);
    if HasOwner(r, w.tables, taskId) {
      var stack := On(SendFrame(taskId, w.epoch, w.tables.tasks[taskId].owner.value), On(root, NoFrame));
      assert RootOf(stack) == root;
      ProcessStarts(w, taskId, stack);
    } else {
      ProcessStarts(w, taskId, On(root.(phase := Returned(true)), NoFrame));
    }
  }

  lemma WriteChangesNoProcess(r: Roles, w: World, origin: Origin, c: Command)
    requires Invariant(w)
    ensures Invariant(Issue(r, w, origin, c))
  {
    var w' := Issue(r, w, origin, c);
    assert forall id :: id in w.inFlight ==> IsFor(w, w.inFlight[id], id);
  }

  // The stretches.

  lemma StartReadyKeeps(r: Roles, w: World, origin: Origin, taskId: TaskId, actorId: EmployeeId, e: Environment)
    requires Invariant(w)
    ensures Invariant(StartReadyTask(r, w, origin, taskId, actorId, e).0)
  {
    WriteChangesNoProcess(r, w, origin, Note(e.ids(1), r.settings.leaderId, Some(taskId), "user.approval.requested"));
    var start := Transition(taskId, Running, actorId, e.ids(1));
    WriteChangesNoProcess(r, w, origin, start);
    FlightStarts(r, Issue(r, w, origin, start), taskId);
  }

  lemma RejectKeeps(r: Roles, w: World, origin: Origin, taskId: TaskId, actorId: EmployeeId, findings: seq<string>,
                    e: Environment)
    requires Invariant(w)
    ensures Invariant(DispatchOnTask(r, w, origin, taskId, actorId, RejectTask(findings), e).0)
  {
    var reject := Reject(taskId, actorId, findings, e.ids(0));
    var rejected := Issue(r, w, origin, reject);
    WriteChangesNoProcess(r, w, origin, reject);
    WriteChangesNoProcess(r, rejected, origin,
        Note(e.ids(1), r.settings.leaderId, Some(taskId), "user.approval.requested"));
    if taskId in rejected.tables.tasks && rejected.tables.tasks[taskId].owner.Some? {
      StartReadyKeeps(r, rejected, origin, taskId, rejected.tables.tasks[taskId].owner.value, e);
    }
  }

  lemma DispatchOnTaskKeeps(r: Roles, w: World, origin: Origin, taskId: TaskId, actorId: EmployeeId, p: Proposal,
                            e: Environment)
    requires Invariant(w) && !p.RequestApproval? && !p.CompleteCompany? && !p.SendMessage?
    ensures Invariant(DispatchOnTask(r, w, origin, taskId, actorId, p, e).0)
  {
    match p
    case ProposeTask(title, objective, dependencies, criteria) =>
      WriteChangesNoProcess(r, w, origin, Propose(taskId, title, objective, dependencies, criteria, e.ids(0)));
    case ApproveTask => WriteChangesNoProcess(r, w, origin, Transition(taskId, Completed, actorId, e.ids(0)));
    case BlockTask => WriteChangesNoProcess(r, w, origin, Transition(taskId, Blocked, actorId, e.ids(0)));
    case AssignTask(assignee) =>
      WriteChangesNoProcess(r, w, origin, Assign(taskId, assignee, e.ids(0)));
      StartReadyKeeps(r, Issue(r, w, origin, Assign(taskId, assignee, e.ids(0))), origin, taskId, assignee, e);
    case SubmitTask(artifacts, evidence) =>
      WriteChangesNoProcess(r, w, origin, Submit(taskId, actorId, artifacts, evidence, e.ids(0), e.ids(1)));
    case RejectTask(findings) => RejectKeeps(r, w, origin, taskId, actorId, findings, e);
    case StartTask => StartReadyKeeps(r, w, origin, taskId, actorId, e);
    case RequestReview =>
  }

  ghost predicate IsOfEpoch(epoch: nat, result: (World, Dispatched)) {
    && result.0.epoch == epoch
    && (result.1.Awaits? ==> !IsRoot(result.1.frame) && result.1.frame.epoch == epoch)
  }

  lemma AssignAwaitsNothing(r: Roles, w: World, origin: Origin, taskId: TaskId, actorId: EmployeeId,
                            assignee: EmployeeId, e: Environment)
    ensures IsOfEpoch(w.epoch, DispatchOnTask(r, w, origin, taskId, actorId, AssignTask(assignee), e))
  {
  }

  lemma RejectAwaitsNothing(r: Roles, w: World, origin: Origin, taskId: TaskId, actorId: EmployeeId,
                            findings: seq<string>, e: Environment)
    ensures IsOfEpoch(w.epoch, DispatchOnTask(r, w, origin, taskId, actorId, RejectTask(findings), e))
  {
  }

  lemma DispatchOnTaskAwaits(r: Roles, w: World, origin: Origin, taskId: TaskId, actorId: EmployeeId, p: Proposal,
                             e: Environment)
    requires !p.RequestApproval? && !p.CompleteCompany? && !p.SendMessage?
    ensures IsOfEpoch(w.epoch, DispatchOnTask(r, w, origin, taskId, actorId, p, e))
  {
    match p
    case AssignTask(assignee) => AssignAwaitsNothing(r, w, origin, taskId, actorId, assignee, e);
    case RejectTask(findings) => RejectAwaitsNothing(r, w, origin, taskId, actorId, findings, e);
    case _ =>
  }

  /** A dispatch awaits a review or a message of the current epoch, if anything. */
  lemma DispatchAwaits(r: Roles, w: World, origin: Origin, a: Action, allowed: bool, e: Environment)
    ensures IsOfEpoch(w.epoch, Dispatch(r, w, origin, a, allowed, e))
  {
    var p := a.proposal;
    if !p.RequestApproval? && !p.CompleteCompany? && !p.SendMessage? && a.taskId.Some? {
      DispatchOnTaskAwaits(r, w, origin, a.taskId.value, a.actorId, p, e);
    }
  }

  lemma DispatchKeeps(r: Roles, w: World, origin: Origin, a: Action, allowed: bool, e: Environment)
    requires Invariant(w)
    ensures Invariant(Dispatch(r, w, origin, a, allowed, e).0)
  {
    var p := a.proposal;
    WriteChangesNoProcess(r, w, origin, Note(e.ids(0), a.actorId, a.taskId, "user.approval.requested"));
    WriteChangesNoProcess(r, w, origin, Note(e.ids(0), a.actorId, a.taskId, "company.completion_requested"));
    WriteChangesNoProcess(r, w, origin, Note(e.ids(0), a.actorId, a.taskId, "employee.message_sent"));
    if !p.RequestApproval? && !p.CompleteCompany? && !p.SendMessage? && a.taskId.Some? {
      DispatchOnTaskKeeps(r, w, origin, a.taskId.value, a.actorId, p, e);
    }
  }

  lemma CallKeeps(r: Roles, w: World, pid: nat, origin: Origin, a: Action, allowed: bool, e: Environment)
    requires Invariant(w) && HasTop(w, pid)
    ensures Invariant(CallDispatch(r, w, pid, origin, a, allowed, e))
  {
    var (w', dispatched) := Dispatch(r, w, origin, a, allowed, e);
    DispatchKeeps(r, w, origin, a, allowed, e);
    DispatchAwaits(r, w, origin, a, allowed, e);
    Drivers.DispatchKeepsStack(r, w, origin, a, allowed, e, pid);
    var f, stack := Top(w, pid), w.processes[pid];
    TopGoesOn(stack, f.(phase := Returned(true)));
    TopGoesOn(stack, f.(phase := Returned(false)));
    TopGoesOn(stack, f.(phase := Calling));
    StackChanges(w', pid, CallDispatch(r, w, pid, origin, a, allowed, e).processes[pid]);
  }

  lemma RetryKeeps(r: Roles, w: World, pid: nat, f: Frame, e: Environment)
    requires Invariant(w) && HasTop(w, pid) && !IsRoot(Top(w, pid))
    ensures Invariant(RetryTask(r, w, pid, f, e))
  {
    var retry := Retry(f.taskId, r.settings.leaderId, e.ids(4));
    var retried := Issue(r, w, FromSend(f.epoch), retry);
    var note := Note(e.ids(5), r.settings.leaderId, Some(f.taskId), "user.approval.requested");
    WriteChangesNoProcess(r, w, FromSend(f.epoch), retry);
    WriteChangesNoProcess(r, retried, FromSend(f.epoch), note);
    TopEnds(w, pid, true);
    TopEnds(retried, pid, true);
    TopEnds(Issue(r, retried, FromSend(f.epoch), note), pid, false);
    TopMoves(retried, pid, Top(retried, pid).(phase := Resuming));
  }

  lemma FailKeeps(r: Roles, w: World, pid: nat, f: Frame, e: Environment)
    requires Invariant(w) && HasTop(w, pid) && !IsRoot(Top(w, pid))
    ensures Invariant(FailTask(r, w, pid, f, e))
  {
    var fail := Transition(f.taskId, Failed, f.employee, e.ids(3));
    TopEnds(w, pid, true);
    WriteChangesNoProcess(r, w, FromSend(f.epoch), fail);
    RetryKeeps(r, Issue(r, w, FromSend(f.epoch), fail), pid, f, e);
  }

  lemma TailKeeps(r: Roles, w: World, pid: nat, failed: bool, e: Environment)
    requires Invariant(w) && HasTop(w, pid) && !IsRoot(Top(w, pid))
    ensures Invariant(SendTail(r, w, pid, failed, e))
  {
    var f := Top(w, pid);
    var note := Note(e.ids(2), f.employee, Some(f.taskId), "task.execution_error");
    TopEnds(w, pid, true);
    TopEnds(w, pid, false);
    WriteChangesNoProcess(r, w, FromSend(f.epoch), note);
    FailKeeps(r, if failed then w else Issue(r, w, FromSend(f.epoch), note), pid, f, e);
  }

  lemma RestartKeeps(r: Roles, w: World, pid: nat, e: Environment)
    requires Invariant(w) && HasTop(w, pid) && !IsRoot(Top(w, pid))
    ensures Invariant(RestartTask(r, w, pid, e))
  {
    var f := Top(w, pid);
    var start := Transition(f.taskId, Running, f.employee, e.ids(0));
    var started := Issue(r, w, FromSend(f.epoch), start);
    var note := Note(e.ids(0), r.settings.leaderId, Some(f.taskId), "user.approval.requested");
    TopEnds(w, pid, true);
    TopEnds(w, pid, false);
    WriteChangesNoProcess(r, w, FromSend(f.epoch), note);
    TopEnds(Issue(r, w, FromSend(f.epoch), note), pid, false);
    WriteChangesNoProcess(r, w, FromSend(f.epoch), start);
    TopEnds(started, pid, true);
    if HasOwner(r, started.tables, f.taskId) {
      TopMoves(started, pid, SendFrame(f.taskId, f.epoch, started.tables.tasks[f.taskId].owner.value));
    }
  }

  lemma ReplacementFailsKeeps(r: Roles, w: World, pid: nat, f: Frame, final: bool, e: Environment)
    requires Invariant(w) && HasTop(w, pid) && !IsRoot(Top(w, pid))
    ensures Invariant(ReplacementFails(r, w, pid, f, final, e))
  {
    var note := Note(e.ids(0), r.settings.leaderId, Some(f.taskId), "user.approval.requested");
    TopEnds(w, pid, false);
    TopMoves(w, pid, Top(w, pid).(phase := Rebuilding));
    WriteChangesNoProcess(r, w, FromSend(f.epoch), note);
    TopEnds(Issue(r, w, FromSend(f.epoch), note), pid, false);
  }

  lemma RejectedKeeps(r: Roles, w: World, pid: nat, f: Frame, e: Environment)
    requires Invariant(w) && HasTop(w, pid) && !IsRoot(Top(w, pid))
    ensures var noted := Record(r, w, FromSend(f.epoch), e, 0, "core", f.taskId, "action.rejected");
            Invariant(SetPhase(noted, pid, Ended(true)))
  {
    var noted := Record(r, w, FromSend(f.epoch), e, 0, "core", f.taskId, "action.rejected");
    WriteChangesNoProcess(r, w, FromSend(f.epoch), Note(e.ids(0), "core", Some(f.taskId), "action.rejected"));
    TopMoves(noted, pid, Top(noted, pid).(phase := Ended(true)));
  }

  lemma StreamKeeps(r: Roles, w: World, pid: nat, f: Frame, input: Input, e: Environment)
    requires Invariant(w) && HasTop(w, pid) && !IsRoot(Top(w, pid)) && Top(w, pid) == f
    ensures Invariant(StepStream(r, w, pid, f, input, e))
  {
    TopEnds(w, pid, false);
    match input
    case StreamEnd => TailKeeps(r, w, pid, false, e);
    case Proposed(action, allowed) =>
      RejectedKeeps(r, w, pid, f, e);
      CallKeeps(r, w, pid, FromSend(f.epoch), action, allowed, e);
    case ErrorEvent => TopMoves(w, pid, f.(phase := Ended(true)));
    case StreamError =>
      var note := Note(e.ids(0), f.employee, Some(f.taskId), "task.execution_error");
      WriteChangesNoProcess(r, w, FromSend(f.epoch), note);
      TailKeeps(r, Issue(r, w, FromSend(f.epoch), note), pid, true, e);
    case _ =>
  }

  lemma SendKeeps(r: Roles, w: World, pid: nat, input: Input, e: Environment)
    requires Invariant(w) && HasTop(w, pid) && Top(w, pid).kind == Sending
    ensures Invariant(StepSend(r, w, pid, input, e))
  {
    var f := Top(w, pid);
    match f.phase
    case Streaming => StreamKeeps(r, w, pid, f, input, e);
    case Returned(failed) =>
      TopMoves(w, pid, f.(phase := Streaming));
      TopEnds(w, pid, false);
      RejectedKeeps(r, w, pid, f, e);
    case Ended(failed) => TailKeeps(r, w, pid, failed, e);
    case Resuming =>
      RestartKeeps(r, w, pid, e);
      ReplacementFailsKeeps(r, w, pid, f, if input.ReplacementFailed? then input.cleanupFailed else true, e);
    case Rebuilding =>
      RestartKeeps(r, w, pid, e);
      ReplacementFailsKeeps(r, w, pid, f, true, e);
    case _ =>
  }

  lemma ReviewKeeps(r: Roles, w: World, pid: nat, input: Input, e: Environment)
    requires Invariant(w) && HasTop(w, pid) && Top(w, pid).kind == Reviewing
    ensures Invariant(StepReview(r, w, pid, input, e))
  {
    var f := Top(w, pid);
    var note := Note(e.ids(0), r.settings.leaderId, Some(f.taskId), "user.approval.requested");
    TopEnds(w, pid, true);
    TopEnds(w, pid, false);
    WriteChangesNoProcess(r, w, FromReview(f.epoch), note);
    TopEnds(Issue(r, w, FromReview(f.epoch), note), pid, false);
    TopMoves(w, pid, f.(decided := true, phase := Streaming));
    if input.Proposed? {
      CallKeeps(r, w, pid, FromReview(f.epoch), input.action, input.allowed, e);
    }
  }

  lemma MessageKeeps(r: Roles, w: World, pid: nat, input: Input, e: Environment)
    requires Invariant(w) && HasTop(w, pid) && Top(w, pid).kind == Messaging
    ensures Invariant(StepMessage(r, w, pid, input, e))
  {
    TopEnds(w, pid, true);
    TopEnds(w, pid, false);
    TopMoves(w, pid, Top(w, pid).(phase := Streaming));
    if input.Proposed? {
      CallKeeps(r, w, pid, FromMessage, input.action, input.allowed, e);
    }
  }

  /** A process ends with its root, and takes its entry along. */
  lemma RootEnds(w: World, pid: nat, failed: bool)
    requires Invariant(w) && HasTop(w, pid) && IsRoot(Top(w, pid))
    ensures var f := Top(w, pid);
            var inFlight := if f.taskId in w.inFlight && w.inFlight[f.taskId] == pid && !f.kind.Outside?
                then w.inFlight - {f.taskId} else w.inFlight;
            Invariant(Complete(w.(inFlight := inFlight), pid, failed))
  {
    var f := Top(w, pid);
    var inFlight := if f.taskId in w.inFlight && w.inFlight[f.taskId] == pid && !f.kind.Outside?
        then w.inFlight - {f.taskId} else w.inFlight;
    var w' := Complete(w.(inFlight := inFlight), pid, failed);
    assert w.processes[pid].below.NoFrame?;
    forall id | id in w'.inFlight
      ensures IsFor(w', w'.inFlight[id], id)
    {
      assert IsFor(w, w.inFlight[id], id);
    }
  }

  lemma RootIsNoted(r: Roles, w: World, pid: nat, e: Environment, failed: bool)
    requires Invariant(w) && HasTop(w, pid) && IsRoot(Top(w, pid)) && Top(w, pid).phase == Returned(failed)
    ensures Invariant(StepRoot(r, w, pid, Continue, e))
  {
    var f := Top(w, pid);
    var origin := if f.kind.Recovery? then FromReview(f.epoch) else FromSend(f.epoch);
    var note := Note(e.ids(0), "core", Some(f.taskId), "task.execution_error");
    WriteChangesNoProcess(r, w, origin, note);
    RootEnds(if failed && f.epoch == w.epoch && !f.kind.Outside? then Issue(r, w, origin, note) else w, pid, failed);
  }

  lemma RootKeeps(r: Roles, w: World, pid: nat, input: Input, e: Environment)
    requires Invariant(w) && HasTop(w, pid) && IsRoot(Top(w, pid))
    ensures Invariant(StepRoot(r, w, pid, input, e))
  {
    var f := Top(w, pid);
    if f.phase.Waiting? {
      TopMoves(w, pid, f.(phase := Returned(true)));
      TopGoesOn(w.processes[pid], f.(phase := Calling));
      StackChanges(w, pid, On(Frame(Reviewing, f.taskId, f.epoch, r.reviewerId, false, Streaming),
                              On(f.(phase := Calling), w.processes[pid].below)));
    } else if f.phase.Returned? && input.Continue? {
      RootIsNoted(r, w, pid, e, f.phase.failed);
    }
  }

  lemma {:induction false} RecoveryKeeps(r: Roles, w: World, ids: seq<TaskId>)
    requires Invariant(w)
    ensures Invariant(RecoverRunning(r, w, ids)) && Invariant(RecoverReviews(w, ids))
    decreases |ids|
  {
    if ids != [] {
      var root := On(Frame(Recovery, ids[0], w.epoch, "", false, Waiting), NoFrame);
      FlightStarts(r, w, ids[0]);
      ProcessStarts(w, ids[0], root);
      RecoveryKeeps(r, if ids[0] in w.inFlight then w else StartInFlight(r, w, ids[0]), ids[1..]);
      RecoveryKeeps(r, if ids[0] in w.inFlight then w else Start(w, ids[0], root), ids[1..]);
    }
  }

  lemma OutsideKeeps(r: Roles, w: World, a: Action, allowed: bool, e: Environment)
    requires Invariant(w)
    ensures Invariant(DispatchOutside(r, w, a, allowed, e))
  {
    var started := StartOutside(w);
    forall id | id in started.inFlight
      ensures IsFor(started, started.inFlight[id], id)
    {
      assert IsFor(w, w.inFlight[id], id);
    }
    CallKeeps(r, started, w.nextProcess, FromOutside, a, allowed, e);
  }

  lemma EpochPasses(w: World, w': World)
    requires Invariant(w) && w.epoch <= w'.epoch
    requires w'.processes == w.processes && w'.nextProcess == w.nextProcess && w'.inFlight == w.inFlight
    ensures Invariant(w')
  {
    forall pid | pid in w.processes
      ensures IsUpTo(w.processes[pid], w'.epoch)
    {
      IsUpToLater(w.processes[pid], w.epoch, w'.epoch);
    }
    forall id | id in w.inFlight
      ensures IsFor(w', w.inFlight[id], id)
    {
      assert IsFor(w, w.inFlight[id], id);
    }
  }

  lemma ApplyKeeps(r: Roles, w: World, stretch: Stretch)
    requires Invariant(w)
    ensures Invariant(Apply(r, w, stretch))
  {
    match stretch
    case Wakes(pid, input, e) =>
      if HasTop(w, pid) {
        match Top(w, pid).kind
        case Sending => SendKeeps(r, w, pid, input, e);
        case Reviewing => ReviewKeeps(r, w, pid, input, e);
        case Messaging => MessageKeeps(r, w, pid, input, e);
        case _ => RootKeeps(r, w, pid, input, e);
      }
    case Asked(a, allowed, e) => OutsideKeeps(r, w, a, allowed, e);
    case Commanded(c) =>
      if !IsStart(c) {
        WriteChangesNoProcess(r, w, FromOutside, c);
      }
    case Recovers(listed) =>
      var first := Drivers.FirstRunning(r, w.tables, listed);
      RecoveryKeeps(r, w, first);
      RecoveryKeeps(r, RecoverRunning(r, w, first), WithStatus(w.tables, listed, Review));
    case Stops => EpochPasses(w, StopDispatching(w));
    case Resumes => EpochPasses(w, ResumeDispatching(w));
  }

  lemma {:induction false} RunKeeps(r: Roles, run: seq<Stretch>)
    ensures Invariant(Orchestrator.After(r, Orchestrator.INITIAL, run))
  {
    if run != [] {
      RunKeeps(r, run[..|run| - 1]);
      ApplyKeeps(r, Orchestrator.After(r, Orchestrator.INITIAL, run[..|run| - 1]), run[|run| - 1]);
    }
  }

  /** However stretches interleave: a task that is in flight has a process that is
      under way for it. So what has ended never keeps a task from being recovered. */
  lemma InFlightIsUnderWay(r: Roles, run: seq<Stretch>, id: TaskId)
    requires id in Orchestrator.After(r, Orchestrator.INITIAL, run).inFlight
    ensures var w := Orchestrator.After(r, Orchestrator.INITIAL, run);
            IsFor(w, w.inFlight[id], id)
  {
    RunKeeps(r, run);
  }

  /** A task nothing is under way for is taken up by recovery: it gets a driver if it
      runs, and a continuation that waits to review it if it is in review. */
  lemma UnattendedTasksAreTakenUp(r: Roles, run: seq<Stretch>, listed: seq<TaskId>, id: TaskId)
    requires r.service == TaskServiceOf(r.settings) && Drivers.RunIsFresh(r, Orchestrator.INITIAL, run)
    requires Distinct(listed) && forall known ::
               known in listed <==> known in Orchestrator.After(r, Orchestrator.INITIAL, run).tables.tasks
    requires forall pid {:trigger IsFor(Orchestrator.After(r, Orchestrator.INITIAL, run), pid, id)} ::
               !IsFor(Orchestrator.After(r, Orchestrator.INITIAL, run), pid, id)
    ensures var w := Orchestrator.After(r, Orchestrator.INITIAL, run);
            var w' := RecoverWork(r, w, listed);
            && (IsIn(w.tables, id, Running) ==> Drivers.IsDriven(w'.processes, w'.epoch, id))
            && (IsIn(w.tables, id, Review) ==> Drivers.WaitingReviews(w', id) > Drivers.WaitingReviews(w, id))
  {
    var w := Orchestrator.After(r, Orchestrator.INITIAL, run);
    if id in w.inFlight {
      InFlightIsUnderWay(r, run, id);
    }
    if IsIn(w.tables, id, Running) {
      assert id in RunningTasks(w.tables);
      Drivers.RecoveryDrivesExactly(r, run, listed, id);
      RecoverWorkWritesNothing(r, w, listed);
    } else {
      Drivers.RecoveryReviewsExactly(r, run, listed, id);
    }
  }

  // A company that was stopped.

  /** No frame will write any more. */
  predicate IsOutdated(stack: Stack, epoch: nat) {
    stack.NoFrame? || (IsOutdated(stack.below, epoch)
        && (stack.top.epoch < epoch || stack.top.kind == Messaging
            || (stack.top.kind == Outside && stack.top.phase != Waiting)))
  }

  lemma {:induction false} StopOutdates(stack: Stack, epoch: nat)
    requires IsUpTo(stack, epoch)
    ensures IsOutdated(stack, epoch + 1)
  {
    if stack.On? {
      StopOutdates(stack.below, epoch);
    }
  }

  lemma {:induction false} StaysOutdated(stack: Stack, epoch: nat)
    requires IsOutdated(stack, epoch)
    ensures IsOutdated(stack, epoch + 1)
  {
    if stack.On? {
      StaysOutdated(stack.below, epoch);
    }
  }

  ghost predicate IsStopped(w: World) {
    !w.accepting && forall pid :: pid in w.processes ==> IsOutdated(w.processes[pid], w.epoch)
  }

  /** Nothing was written, and the company is still stopped. */
  ghost predicate StaysStopped(w: World, w': World) {
    IsStopped(w') && w'.tables == w.tables && w'.issued == w.issued
  }

  lemma StoppedTopMoves(w: World, pid: nat, f: Frame)
    requires IsStopped(w) && HasTop(w, pid) && f.kind == Top(w, pid).kind && f.epoch == Top(w, pid).epoch
             && f.phase != Waiting
    ensures StaysStopped(w, SetTop(w, pid, f))
  {
  }

  lemma StoppedTopEnds(w: World, pid: nat, failed: bool)
    requires IsStopped(w) && HasTop(w, pid)
    ensures StaysStopped(w, Complete(w, pid, failed))
  {
    assert IsOutdated(w.processes[pid].below, w.epoch);
  }

  lemma StoppedCallIsRefused(r: Roles, w: World, pid: nat, origin: Origin, a: Action, allowed: bool, e: Environment)
    requires IsStopped(w) && HasTop(w, pid)
    ensures StaysStopped(w, CallDispatch(r, w, pid, origin, a, allowed, e))
  {
    StoppedTopMoves(w, pid, Top(w, pid).(phase := Returned(true)));
  }

  lemma StoppedSendWritesNothing(r: Roles, w: World, pid: nat, input: Input, e: Environment)
    requires IsStopped(w) && HasTop(w, pid) && Top(w, pid).kind == Sending
    ensures StaysStopped(w, StepSend(r, w, pid, input, e))
  {
    StoppedTopEnds(w, pid, false);
    StoppedTopMoves(w, pid, Top(w, pid).(phase := Streaming));
    StoppedTopMoves(w, pid, Top(w, pid).(phase := Ended(true)));
  }

  lemma StoppedReviewWritesNothing(r: Roles, w: World, pid: nat, input: Input, e: Environment)
    requires IsStopped(w) && HasTop(w, pid) && Top(w, pid).kind == Reviewing
    ensures StaysStopped(w, StepReview(r, w, pid, input, e))
  {
    StoppedTopEnds(w, pid, true);
    StoppedTopEnds(w, pid, false);
    StoppedTopMoves(w, pid, Top(w, pid).(decided := true, phase := Streaming));
  }

  lemma StoppedMessageWritesNothing(r: Roles, w: World, pid: nat, input: Input, e: Environment)
    requires IsStopped(w) && HasTop(w, pid) && Top(w, pid).kind == Messaging
    ensures StaysStopped(w, StepMessage(r, w, pid, input, e))
  {
    StoppedTopEnds(w, pid, true);
    StoppedTopEnds(w, pid, false);
    StoppedTopMoves(w, pid, Top(w, pid).(phase := Streaming));
    if input.Proposed? {
      StoppedCallIsRefused(r, w, pid, FromMessage, input.action, input.allowed, e);
    }
  }

  lemma StoppedRootWritesNothing(r: Roles, w: World, pid: nat, input: Input, e: Environment)
    requires IsStopped(w) && HasTop(w, pid) && IsRoot(Top(w, pid))
    ensures StaysStopped(w, StepRoot(r, w, pid, input, e))
  {
    var f := Top(w, pid);
    StoppedTopMoves(w, pid, f.(phase := Returned(true)));
    if f.phase.Returned? {
      var inFlight := if f.taskId in w.inFlight && w.inFlight[f.taskId] == pid && !f.kind.Outside?
          then w.inFlight - {f.taskId} else w.inFlight;
      StoppedTopEnds(w.(inFlight := inFlight), pid, f.phase.failed);
    }
  }

  /** What a stop and what follows it leaves to do: continuations go on, actions are
      proposed, and the company may be stopped again. */
  predicate IsIdle(stretch: Stretch) {
    stretch.Wakes? || stretch.Asked? || stretch.Stops?
  }

  lemma StoppedStretchWritesNothing(r: Roles, w: World, stretch: Stretch)
    requires IsStopped(w) && IsIdle(stretch)
    ensures StaysStopped(w, Apply(r, w, stretch))
  {
    match stretch
    case Wakes(pid, input, e) =>
      if HasTop(w, pid) {
        match Top(w, pid).kind
        case Sending => StoppedSendWritesNothing(r, w, pid, input, e);
        case Reviewing => StoppedReviewWritesNothing(r, w, pid, input, e);
        case Messaging => StoppedMessageWritesNothing(r, w, pid, input, e);
        case _ => StoppedRootWritesNothing(r, w, pid, input, e);
      }
    case Asked(a, allowed, e) =>
      assert IsOutdated(NoFrame, w.epoch);
      StoppedCallIsRefused(r, StartOutside(w), w.nextProcess, FromOutside, a, allowed, e);
    case Stops =>
      forall pid | pid in w.processes
        ensures IsOutdated(w.processes[pid], w.epoch + 1)
      {
        StaysOutdated(w.processes[pid], w.epoch);
      }
    case _ =>
  }

  /** A company that was stopped writes nothing, whatever its continuations get to
      hear and whoever asks for an action, until it resumes or recovers. */
  lemma {:induction false} StoppedCompanyWritesNothing(r: Roles, before: seq<Stretch>, after: seq<Stretch>)
    requires forall i :: 0 <= i < |after| ==> IsIdle(after[i])
    ensures var w := Orchestrator.After(r, Orchestrator.INITIAL, before);
            var w' := Orchestrator.After(r, StopDispatching(w), after);
            StaysStopped(w, w')
  {
    var w := Orchestrator.After(r, Orchestrator.INITIAL, before);
    if after == [] {
      RunKeeps(r, before);
      forall pid | pid in w.processes
        ensures IsOutdated(w.processes[pid], w.epoch + 1)
      {
        StopOutdates(w.processes[pid], w.epoch);
      }
    } else {
      var last := |after| - 1;
      StoppedCompanyWritesNothing(r, before, after[..last]);
      StoppedStretchWritesNothing(r, Orchestrator.After(r, StopDispatching(w), after[..last]), after[last]);
    }
  }
}
