/**
 Who owns the handles that agent adapters return: active sessions, handles kept
 for cleanup, and replacements that are still being made.
 */
module SessionOwnership {
  import opened Wrappers

  type EmployeeId = string

  datatype Handle = Handle(adapter: string, employeeId: EmployeeId, internalSessionId: string)

  datatype Pending = Pending(employeeId: EmployeeId, cancelled: bool)

  /** A handle to stop, as it was collected. */
  datatype Candidate = Candidate(handle: Handle, employeeId: EmployeeId, active: bool, order: nat)

  /** The maps of the session manager. A handle stands for its key. `alive` holds
      the handles that an adapter returned and no stop has ended since, `left` those
      among them that a replacement superseded, `cancelled` the replacements cancelled
      while pending, and `installed` those that became sessions. */
  datatype Manager = Manager(
    active: map<EmployeeId, Handle>, cleanup: map<Handle, nat>, orders: map<Handle, nat>, pending: map<nat, Pending>,
    nextOrder: nat, version: nat, nextReplacement: nat,
    alive: set<Handle>, left: set<Handle>, cancelled: set<nat>, installed: set<nat>)

  const INITIAL := Manager(map[], map[], map[], map[], 0, 0, 0, {}, {}, {}, {})

  // Bookkeeping.

  function Register(m: Manager, h: Handle): Manager {
    if h in m.orders then m else m.(nextOrder := m.nextOrder + 1, orders := m.orders[h := m.nextOrder + 1])
  }

  function RegisterAll(m: Manager, handles: seq<Handle>): Manager
    decreases |handles|
  {
    if handles == [] then m else RegisterAll(Register(m, handles[0]), handles[1..])
  }

  function Retain(m: Manager, h: Handle): Manager {
    var r := Register(m, h);
    r.(cleanup := r.cleanup[h := r.orders[h]], version := r.version + 1)
  }

  function RemoveCleanup(m: Manager, h: Handle): Manager {
    m.(cleanup := m.cleanup - {h}, version := m.version + if h in m.cleanup then 1 else 0)
  }

  function Forget(m: Manager, h: Handle): Manager {
    RemoveCleanup(m, h).(orders := m.orders - {h})
  }

  /** A stop of `h` succeeded. */
  function Dead(m: Manager, h: Handle): Manager {
    m.(alive := m.alive - {h}, left := m.left - {h})
  }

  /** Adapters returned `handles`, for the first time or again. */
  function Returned(m: Manager, handles: set<Handle>): Manager {
    m.(alive := m.alive + handles, left := m.left - handles)
  }

  /** A replacement supersedes `h`, which is forgotten without being stopped. */
  function Leave(m: Manager, h: Handle): Manager {
    Forget(m, h).(left := if h in m.alive then m.left + {h} else m.left)
  }

  function BeginReplacement(m: Manager, e: EmployeeId): Manager {
    m.(pending := m.pending[m.nextReplacement := Pending(e, false)], nextReplacement := m.nextReplacement + 1,
        version := m.version + 1)
  }

  function FinishReplacement(m: Manager, id: nat): Manager {
    m.(pending := m.pending - {id}, version := m.version + if id in m.pending then 1 else 0)
  }

  function CancelPending(m: Manager): Manager {
    m.(pending := map id | id in m.pending ::
        m.pending[id].(cancelled := true), cancelled := m.cancelled + m.pending.Keys)
  }

  /** A persisted replacement becomes the session of the employee. */
  function Install(m: Manager, id: nat, e: EmployeeId, h: Handle): Manager {
    var installed := m.(active := m.active[e := h], version := m.version + 1, installed := m.installed + {id});
    var kept := RemoveCleanup(installed, h);
    if e in m.active && m.active[e] != h then Leave(kept, m.active[e]) else kept
  }

  /** A collected handle was stopped; `noted` tells if the store could note it. */
  function AfterStop(m: Manager, c: Candidate, noted: bool): Manager {
    var dead := Dead(m, c.handle);
    if c.active && !noted then dead
    else
      var dropped := if c.active && c.employeeId in dead.active && dead.active[c.employeeId] == c.handle
                     then dead.(active := dead.active - {c.employeeId}, version := dead.version + 1) else dead;
      Forget(dropped, c.handle)
  }

  // Collecting what is to be stopped.

  function ActiveHandles(m: Manager, listed: seq<EmployeeId>): seq<Handle> {
    if listed == [] then []
    else (if listed[0] in m.active then [m.active[listed[0]]] else []) + ActiveHandles(m, listed[1..])
  }

  ghost predicate Lists(m: Manager, listed: seq<EmployeeId>) {
    forall e :: e in listed <==> e in m.active
  }

  ghost predicate IsActive(m: Manager, h: Handle) {
    exists e :: e in m.active && m.active[e] == h
  }

  ghost predicate IsOwned(m: Manager, h: Handle) {
    h in m.cleanup || IsActive(m, h)
  }

  ghost predicate IsCandidate(m: Manager, c: Candidate) {
    && c.handle in m.orders && c.order == m.orders[c.handle]
    && if c.active then c.employeeId in m.active && m.active[c.employeeId] == c.handle
       else c.handle in m.cleanup && !IsActive(m, c.handle) && c.employeeId == c.handle.employeeId
  }

  predicate IsAmong(candidates: seq<Candidate>, h: Handle) {
    exists i :: 0 <= i < |candidates| && candidates[i].handle == h
  }

  predicate AreDescending(candidates: seq<Candidate>) {
    forall i, j :: 0 <= i < j < |candidates| ==> candidates[i].order > candidates[j].order
  }

  /** Exactly the owned handles, the latest first. */
  ghost predicate AreStopCandidates(m: Manager, candidates: seq<Candidate>) {
    && AreDescending(candidates)
    && (forall c :: c in candidates ==> IsCandidate(m, c))
    && (forall h :: IsOwned(m, h) ==> IsAmong(candidates, h))
  }

  // Starting all employees, as one block.

  function Started(results: seq<Option<Handle>>): seq<Handle> {
    if results == [] then [] else (if results[0].Some? then [results[0].value] else []) + Started(results[1..])
  }

  /** The started handles are stopped again, the last one first. */
  function StopStarted(m: Manager, handles: seq<Handle>, stops: seq<bool>): Manager
    decreases |handles|
  {
    if handles == [] then m
    else
      var last := |handles| - 1;
      var stopped := if last < |stops| && stops[last] then Dead(Forget(m, handles[last]), handles[last])
          else Retain(m, handles[last]);
      StopStarted(stopped, handles[..last], stops)
  }

  function InstallAll(m: Manager, employees: seq<EmployeeId>, handles: seq<Handle>): Manager
    requires |employees| == |handles|
  {
    if employees == [] then m
    else
      var last := |employees| - 1;
      var before := InstallAll(m, employees[..last], handles[..last]);
      before.(active := before.active[employees[last] := handles[last]], version := before.version + 1)
  }

  /** `startAll`: every adapter succeeds or not, persisting may fail at one of the
      sessions, and each stop of the roll-back succeeds or not. */
  function StartAll(m: Manager, employees: seq<EmployeeId>, results: seq<Option<Handle>>, persisted: nat,
                    stops: seq<bool>): Manager
    requires |results| == |employees|
  {
    var handles := Started(results);
    var registered := Returned(RegisterAll(m, handles), set h | h in handles);
    if m.active != map[] then m
    else if |handles| < |employees| then StopStarted(registered, handles, stops)
    else if persisted < |employees| then
      var stopped := StopStarted(InstallAll(registered, employees[..persisted], handles[..persisted]), handles, stops);
      stopped.(active := map[], version := stopped.version + |stopped.active|)
    else InstallAll(registered, employees, handles[..|employees|])
  }

  // Runs.

  /** How far a replacement has come. */
  datatype Stage = Creating | Accepted(handle: Handle) | Discarding(handle: Handle)

  datatype Replacement = Replacement(employeeId: EmployeeId, stage: Stage)

  datatype World = World(manager: Manager, replacements: map<nat, Replacement>, stopping: seq<Candidate>)

  datatype Step =
    | Begins(employeeId: EmployeeId)
    | AdapterFails(id: nat)
    | AdapterReturns(id: nat, handle: Handle, aborted: bool)
    | Persists(id: nat)
    | PersistFails(id: nat)
    | DiscardEnds(id: nat, stopped: bool)
    | Cancels
    | Collects(listed: seq<EmployeeId>, candidates: seq<Candidate>)
    | StopSucceeds(which: nat, noted: bool)
    | StartsAll(employees: seq<EmployeeId>, results: seq<Option<Handle>>, persisted: nat, stops: seq<bool>)

  predicate IsCreating(w: World, id: nat) {
    id in w.replacements && w.replacements[id].stage.Creating?
  }

  predicate IsAccepted(w: World, id: nat) {
    id in w.replacements && w.replacements[id].stage.Accepted?
  }

  predicate IsDiscarding(w: World, id: nat) {
    id in w.replacements && w.replacements[id].stage.Discarding?
  }

  function SetStage(w: World, m: Manager, id: nat, stage: Stage): World
    requires id in w.replacements
  {
    w.(manager := m, replacements := w.replacements[id := w.replacements[id].(stage := stage)])
  }

  function EndReplacement(w: World, m: Manager, id: nat): World {
    w.(manager := m, replacements := w.replacements - {id})
  }

  /** The adapter returned the handle of a replacement: it is kept for cleanup
      before anything else, and discarded if the replacement was cancelled. */
  function Return(w: World, id: nat, h: Handle, aborted: bool): World
    requires IsCreating(w, id)
  {
    var m := w.manager;
    var returned := FinishReplacement(Returned(Retain(m, h), {h}), id);
    var cancelled := id in m.pending && m.pending[id].cancelled;
    SetStage(w, returned, id, if aborted || cancelled then Discarding(h) else Accepted(h))
  }

  function Discard(m: Manager, h: Handle, stopped: bool): Manager {
    if stopped then Dead(Forget(m, h), h) else Retain(m, h)
  }

  /** One stretch. A stop that fails or is aborted changes nothing. */
  ghost function Perform(w: World, step: Step): World {
    var m := w.manager;
    match step
    case Begins(e) =>
      w.(manager := BeginReplacement(m, e),
          replacements := w.replacements[m.nextReplacement := Replacement(e, Creating)])
    case AdapterFails(id) => if IsCreating(w, id) then EndReplacement(w, FinishReplacement(m, id), id) else w
    case AdapterReturns(id, h, aborted) => if IsCreating(w, id) then Return(w, id, h, aborted) else w
    case Persists(id) =>
      if IsAccepted(w, id) then
        EndReplacement(w, Install(m, id, w.replacements[id].employeeId, w.replacements[id].stage.handle), id)
      else w
    case PersistFails(id) => if IsAccepted(w, id) then SetStage(w, m, id, Discarding(w.replacements[id].stage.handle))
        else w
    case DiscardEnds(id, stopped) =>
      if IsDiscarding(w, id) then EndReplacement(w, Discard(m, w.replacements[id].stage.handle, stopped), id) else w
    case Cancels => w.(manager := CancelPending(m))
    case Collects(listed, candidates) =>
      var registered := RegisterAll(m, ActiveHandles(m, listed));
      if Lists(m, listed) && AreStopCandidates(registered, candidates) then
        w.(manager := CancelPending(registered), stopping := w.stopping + candidates)
      else w
    case StopSucceeds(which, noted) =>
      if which < |w.stopping| then w.(manager := AfterStop(m, w.stopping[which], noted)) else w
    case StartsAll(employees, results, persisted, stops) =>
      if |results| == |employees| && Distinct(employees)
          then w.(manager := StartAll(m, employees, results, persisted, stops)) else w
  }

  ghost function After(w: World, steps: seq<Step>): World {
    if steps == [] then w else Perform(After(w, steps[..|steps| - 1]), steps[|steps| - 1])
  }

  const START := World(INITIAL, map[], [])

  // Nothing alive is lost, unless it was superseded.

  ghost predicate LiveIsOwned(m: Manager) {
    m.left <= m.alive && forall h :: h in m.alive ==> h in m.left || IsOwned(m, h)
  }

  lemma {:induction false} RegisterAllOnlyRegisters(m: Manager, handles: seq<Handle>)
    ensures var r := RegisterAll(m, handles); r == m.(orders := r.orders, nextOrder := r.nextOrder)
    decreases |handles|
  {
    if handles != [] {
      RegisterAllOnlyRegisters(Register(m, handles[0]), handles[1..]);
    }
  }

  lemma RetainKeepsOwned(m: Manager, h: Handle)
    ensures forall g :: IsOwned(Retain(m, h), g) <==> IsOwned(m, g) || g == h
  {
    assert forall g :: IsActive(Retain(m, h), g) == IsActive(m, g);
  }

  lemma ForgetKeepsOthers(m: Manager, h: Handle)
    ensures forall g :: IsOwned(m, g) && g != h ==> IsOwned(Forget(m, h), g)
  {
    assert forall g :: IsActive(Forget(m, h), g) == IsActive(m, g);
  }

  lemma InstallKeepsLiveOwned(m: Manager, id: nat, e: EmployeeId, h: Handle)
    requires LiveIsOwned(m)
    ensures LiveIsOwned(Install(m, id, e, h))
  {
    var m' := Install(m, id, e, h);
    forall g | g in m'.alive && g !in m'.left
      ensures IsOwned(m', g)
    {
      assert IsOwned(m, g);
      if g == h {
        assert m'.active[e] == h;
      } else if g !in m.cleanup {
        var f :| f in m.active && m.active[f] == g;
        assert f != e;
        assert m'.active[f] == g;
      }
    }
  }

  lemma AfterStopKeepsLiveOwned(m: Manager, c: Candidate, noted: bool)
    requires LiveIsOwned(m)
    ensures LiveIsOwned(AfterStop(m, c, noted))
  {
    var m' := AfterStop(m, c, noted);
    forall g | g in m'.alive && g !in m'.left
      ensures IsOwned(m', g)
    {
      assert IsOwned(m, g);
      if g !in m.cleanup {
        var f :| f in m.active && m.active[f] == g;
        assert f in m'.active && m'.active[f] == g;
      }
    }
  }

  /** Stopping the started handles again leaves only those to account for that are
      not yet stopped. */
  lemma {:induction false} StopStartedKeepsLiveOwned(m: Manager, handles: seq<Handle>, stops: seq<bool>)
    requires m.left <= m.alive && forall h :: h in m.alive ==> h in m.left || h in m.cleanup || h in handles
    ensures var m' := StopStarted(m, handles, stops);
            && (forall h :: h in m'.alive ==> h in m'.left || h in m'.cleanup)
            && m'.left <= m'.alive && m'.active == m.active
    decreases |handles|
  {
    if handles != [] {
      var last := |handles| - 1;
      assert handles == handles[..last] + [handles[last]];
      var stopped := if last < |stops| && stops[last] then Dead(Forget(m, handles[last]), handles[last])
          else Retain(m, handles[last]);
      assert forall h :: h in handles ==> h in handles[..last] || h == handles[last];
      assert forall h :: h in stopped.alive ==> h in stopped.left || h in stopped.cleanup || h in handles[..last];
      StopStartedKeepsLiveOwned(stopped, handles[..last], stops);
    }
  }

  lemma {:induction false} InstallAllInstalls(m: Manager, employees: seq<EmployeeId>, handles: seq<Handle>)
    requires |employees| == |handles|
    ensures var m' := InstallAll(m, employees, handles);
            && m' == m.(active := m'.active, version := m.version + |employees|)
            && (forall e :: e in m'.active ==> e in m.active || e in employees)
            && (employees == [] ==> m'.active == m.active)
  {
    if employees != [] {
      var last := |employees| - 1;
      assert employees == employees[..last] + [employees[last]];
      InstallAllInstalls(m, employees[..last], handles[..last]);
    }
  }

  lemma {:induction false} InstallAllIsActive(m: Manager, employees: seq<EmployeeId>, handles: seq<Handle>, i: nat)
    requires |employees| == |handles| && Distinct(employees) && i < |employees|
    ensures var m' := InstallAll(m, employees, handles);
            employees[i] in m'.active && m'.active[employees[i]] == handles[i]
  {
    var last := |employees| - 1;
    if i < last {
      InstallAllIsActive(m, employees[..last], handles[..last], i);
    }
  }

  lemma {:induction false} StartedAreFew(results: seq<Option<Handle>>)
    ensures |Started(results)| <= |results|
  {
    if results != [] {
      StartedAreFew(results[1..]);
    }
  }

  lemma StartAllKeepsLiveOwned(m: Manager, employees: seq<EmployeeId>, results: seq<Option<Handle>>, persisted: nat,
                               stops: seq<bool>)
    requires |results| == |employees| && Distinct(employees) && LiveIsOwned(m)
    ensures LiveIsOwned(StartAll(m, employees, results, persisted, stops))
  {
    if m.active == map[] {
      var handles := Started(results);
      var registered := Returned(RegisterAll(m, handles), set h | h in handles);
      RegisterAllOnlyRegisters(m, handles);
      assert forall h :: h in m.alive && h !in m.left ==> IsOwned(m, h) && h in m.cleanup;
      StartedAreFew(results);
      if |handles| < |employees| {
        StopStartedKeepsLiveOwned(registered, handles, stops);
      } else if persisted < |employees| {
        InstallAllInstalls(registered, employees[..persisted], handles[..persisted]);
        StopStartedKeepsLiveOwned(InstallAll(registered, employees[..persisted], handles[..persisted]), handles, stops);
      } else {
        assert handles[..|employees|] == handles;
        InstalledKeepsLiveOwned(registered, employees, handles);
      }
    }
  }

  lemma InstalledKeepsLiveOwned(m: Manager, employees: seq<EmployeeId>, handles: seq<Handle>)
    requires |employees| == |handles| && Distinct(employees)
    requires m.left <= m.alive && forall h :: h in m.alive ==> h in m.left || h in m.cleanup || h in handles
    ensures LiveIsOwned(InstallAll(m, employees, handles))
  {
    InstallAllInstalls(m, employees, handles);
    EveryHandleIsInstalled(m, employees, handles);
  }

  lemma EveryHandleIsInstalled(m: Manager, employees: seq<EmployeeId>, handles: seq<Handle>)
    requires |employees| == |handles| && Distinct(employees)
    ensures forall h :: h in handles ==> IsActive(InstallAll(m, employees, handles), h)
  {
    forall h | h in handles
      ensures IsActive(InstallAll(m, employees, handles), h)
    {
      var i :| 0 <= i < |handles| && handles[i] == h;
      InstallAllIsActive(m, employees, handles, i);
    }
  }

  lemma DiscardKeepsLiveOwned(m: Manager, h: Handle, stopped: bool)
    requires LiveIsOwned(m)
    ensures LiveIsOwned(Discard(m, h, stopped))
  {
    RetainKeepsOwned(m, h);
    ForgetKeepsOthers(m, h);
    assert forall g :: IsActive(Dead(Forget(m, h), h), g) == IsActive(Forget(m, h), g);
  }

  lemma ReturnKeepsLiveOwned(w: World, id: nat, h: Handle, aborted: bool)
    requires IsCreating(w, id) && LiveIsOwned(w.manager)
    ensures LiveIsOwned(Return(w, id, h, aborted).manager)
  {
    var retained := Retain(w.manager, h);
    RetainKeepsOwned(w.manager, h);
    assert forall g :: IsActive(Return(w, id, h, aborted).manager, g) == IsActive(retained, g);
  }

  lemma StepKeepsLiveOwned(w: World, step: Step)
    requires LiveIsOwned(w.manager)
    ensures LiveIsOwned(Perform(w, step).manager)
  {
    var m, m' := w.manager, Perform(w, step).manager;
    match step
    case AdapterReturns(id, h, aborted) => if IsCreating(w, id) { ReturnKeepsLiveOwned(w, id, h, aborted); }
    case Persists(id) =>
      if IsAccepted(w, id) {
        InstallKeepsLiveOwned(m, id, w.replacements[id].employeeId, w.replacements[id].stage.handle);
      }
    case DiscardEnds(id, stopped) =>
      if IsDiscarding(w, id) {
        DiscardKeepsLiveOwned(m, w.replacements[id].stage.handle, stopped);
      }
    case Collects(listed, candidates) =>
      RegisterAllOnlyRegisters(m, ActiveHandles(m, listed));
      OwnersDecide(m, m');
    case StopSucceeds(which, noted) => if which < |w.stopping| { AfterStopKeepsLiveOwned(m, w.stopping[which], noted); }
    case StartsAll(employees, results, persisted, stops) =>
      if |results| == |employees| && Distinct(employees) {
        StartAllKeepsLiveOwned(m, employees, results, persisted, stops);
      }
    case _ => OwnersDecide(m, m');
  }

  lemma OwnersDecide(m: Manager, m': Manager)
    requires LiveIsOwned(m) && m'.active == m.active && m'.cleanup == m.cleanup
    requires m'.alive == m.alive && m'.left == m.left
    ensures LiveIsOwned(m')
  {
    assert forall g :: IsActive(m', g) == IsActive(m, g);
  }

  lemma {:induction false} RunKeepsLiveOwned(w: World, steps: seq<Step>)
    requires LiveIsOwned(w.manager)
    ensures LiveIsOwned(After(w, steps).manager)
  {
    if steps != [] {
      RunKeepsLiveOwned(w, steps[..|steps| - 1]);
      StepKeepsLiveOwned(After(w, steps[..|steps| - 1]), steps[|steps| - 1]);
    }
  }

  // A replacement that was cancelled while pending.

  /** What can have become of the replacement `id`. */
  ghost predicate FateIsKnown(w: World, id: nat) {
    var m := w.manager;
    && (id in m.pending ==> IsCreating(w, id) && (m.pending[id].cancelled <==> id in m.cancelled))
    && (id in w.replacements ==>
          id !in m.installed && (IsCreating(w, id) ==> id in m.pending) && (IsAccepted(w, id) ==> id !in m.cancelled))
    && (id in m.installed ==> id !in m.cancelled)
    && (id in w.replacements || id in m.installed || id in m.cancelled ==> id < m.nextReplacement)
  }

  ghost predicate FatesAreKnown(w: World) {
    forall id: nat :: FateIsKnown(w, id)
  }

  lemma {:induction false} StopStartedKeepsFates(m: Manager, handles: seq<Handle>, stops: seq<bool>)
    ensures var m' := StopStarted(m, handles, stops);
            (m'.pending, m'.nextReplacement, m'.installed, m'.cancelled) ==
                (m.pending, m.nextReplacement, m.installed, m.cancelled)
    decreases |handles|
  {
    if handles != [] {
      var last := |handles| - 1;
      var stopped := if last < |stops| && stops[last] then Dead(Forget(m, handles[last]), handles[last])
          else Retain(m, handles[last]);
      StopStartedKeepsFates(stopped, handles[..last], stops);
    }
  }

  lemma StartAllKeepsFates(m: Manager, employees: seq<EmployeeId>, results: seq<Option<Handle>>, persisted: nat,
                           stops: seq<bool>)
    requires |results| == |employees|
    ensures var m' := StartAll(m, employees, results, persisted, stops);
            (m'.pending, m'.nextReplacement, m'.installed, m'.cancelled) ==
                (m.pending, m.nextReplacement, m.installed, m.cancelled)
  {
    var handles := Started(results);
    var registered := Returned(RegisterAll(m, handles), set h | h in handles);
    RegisterAllOnlyRegisters(m, handles);
    StartedAreFew(results);
    if |handles| < |employees| {
      StopStartedKeepsFates(registered, handles, stops);
    } else if persisted < |employees| {
      InstallAllInstalls(registered, employees[..persisted], handles[..persisted]);
      StopStartedKeepsFates(InstallAll(registered, employees[..persisted], handles[..persisted]), handles, stops);
    } else {
      InstallAllInstalls(registered, employees, handles[..|employees|]);
    }
  }

  /** Steps that concern no replacement. */
  lemma OtherStepKeepsFates(w: World, step: Step)
    requires FatesAreKnown(w) && (step.StopSucceeds? || step.StartsAll?)
    ensures FatesAreKnown(Perform(w, step))
  {
    if step.StartsAll? && |step.results| == |step.employees| {
      StartAllKeepsFates(w.manager, step.employees, step.results, step.persisted, step.stops);
    }
    forall id: nat
      ensures FateIsKnown(Perform(w, step), id)
    {
      assert FateIsKnown(w, id);
    }
  }

  lemma StepKeepsFates(w: World, step: Step)
    requires FatesAreKnown(w)
    ensures FatesAreKnown(Perform(w, step))
  {
    if step.StopSucceeds? || step.StartsAll? {
      OtherStepKeepsFates(w, step);
    } else {
      if step.Collects? {
        RegisterAllOnlyRegisters(w.manager, ActiveHandles(w.manager, step.listed));
      }
      forall id: nat
        ensures FateIsKnown(Perform(w, step), id)
      {
        assert FateIsKnown(w, id) && FateIsKnown(w, w.manager.nextReplacement);
      }
    }
  }

  lemma CancelledStays(w: World, step: Step)
    ensures w.manager.cancelled <= Perform(w, step).manager.cancelled
  {
    match step
    case Collects(listed, candidates) => RegisterAllOnlyRegisters(w.manager, ActiveHandles(w.manager, listed));
    case StartsAll(employees, results, persisted, stops) =>
      if |results| == |employees| {
        StartAllKeepsFates(w.manager, employees, results, persisted, stops);
      }
    case _ =>
  }

  lemma {:induction false} RunKeepsFates(w: World, steps: seq<Step>)
    requires FatesAreKnown(w)
    ensures FatesAreKnown(After(w, steps)) && w.manager.cancelled <= After(w, steps).manager.cancelled
  {
    if steps != [] {
      RunKeepsFates(w, steps[..|steps| - 1]);
      StepKeepsFates(After(w, steps[..|steps| - 1]), steps[|steps| - 1]);
      CancelledStays(After(w, steps[..|steps| - 1]), steps[|steps| - 1]);
    }
  }

  // The orders of handles.

  ghost predicate OrdersAreSound(m: Manager) {
    && (forall h ::
          && (h in m.cleanup ==> h in m.orders && m.orders[h] == m.cleanup[h])
          && (h in m.orders ==> 0 < m.orders[h] <= m.nextOrder))
    && (forall g, h :: g in m.orders && h in m.orders && m.orders[g] == m.orders[h] ==> g == h)
  }

  lemma {:induction false} RegisterAllKeepsOrders(m: Manager, handles: seq<Handle>)
    requires OrdersAreSound(m)
    ensures OrdersAreSound(RegisterAll(m, handles))
    ensures forall h :: h in handles || h in m.orders ==> h in RegisterAll(m, handles).orders
    decreases |handles|
  {
    if handles != [] {
      assert handles == [handles[0]] + handles[1..];
      RegisterAllKeepsOrders(Register(m, handles[0]), handles[1..]);
    }
  }

  lemma {:induction false} StopStartedKeepsOrders(m: Manager, handles: seq<Handle>, stops: seq<bool>)
    requires OrdersAreSound(m)
    ensures OrdersAreSound(StopStarted(m, handles, stops))
    decreases |handles|
  {
    if handles != [] {
      var last := |handles| - 1;
      var stopped := if last < |stops| && stops[last] then Dead(Forget(m, handles[last]), handles[last])
          else Retain(m, handles[last]);
      StopStartedKeepsOrders(stopped, handles[..last], stops);
    }
  }

  lemma StartAllKeepsOrders(m: Manager, employees: seq<EmployeeId>, results: seq<Option<Handle>>, persisted: nat,
                            stops: seq<bool>)
    requires |results| == |employees| && OrdersAreSound(m)
    ensures OrdersAreSound(StartAll(m, employees, results, persisted, stops))
  {
    var handles := Started(results);
    var registered := Returned(RegisterAll(m, handles), set h | h in handles);
    RegisterAllKeepsOrders(m, handles);
    StartedAreFew(results);
    if |handles| < |employees| {
      StopStartedKeepsOrders(registered, handles, stops);
    } else if persisted < |employees| {
      InstallAllInstalls(registered, employees[..persisted], handles[..persisted]);
      StopStartedKeepsOrders(InstallAll(registered, employees[..persisted], handles[..persisted]), handles, stops);
    } else {
      InstallAllInstalls(registered, employees, handles[..|employees|]);
    }
  }

  lemma InstallKeepsOrders(m: Manager, id: nat, e: EmployeeId, h: Handle)
    requires OrdersAreSound(m)
    ensures OrdersAreSound(Install(m, id, e, h))
  {
  }

  lemma ForgetKeepsOrders(m: Manager, h: Handle)
    requires OrdersAreSound(m)
    ensures OrdersAreSound(Forget(m, h))
  {
  }

  lemma AfterStopKeepsOrders(m: Manager, c: Candidate, noted: bool)
    requires OrdersAreSound(m)
    ensures OrdersAreSound(AfterStop(m, c, noted))
  {
    ForgetKeepsOrders(m, c.handle);
  }

  lemma RetainKeepsOrders(m: Manager, h: Handle)
    requires OrdersAreSound(m)
    ensures OrdersAreSound(Retain(m, h))
  {
  }

  lemma StepKeepsOrders(w: World, step: Step)
    requires OrdersAreSound(w.manager)
    ensures OrdersAreSound(Perform(w, step).manager)
  {
    match step
    case Collects(listed, candidates) => RegisterAllKeepsOrders(w.manager, ActiveHandles(w.manager, listed));
    case StartsAll(employees, results, persisted, stops) =>
      if |results| == |employees| {
        StartAllKeepsOrders(w.manager, employees, results, persisted, stops);
      }
    case Persists(id) =>
      if IsAccepted(w, id) {
        InstallKeepsOrders(w.manager, id, w.replacements[id].employeeId, w.replacements[id].stage.handle);
      }
    case AdapterReturns(id, h, aborted) => RetainKeepsOrders(w.manager, h);
    case DiscardEnds(id, stopped) =>
      if IsDiscarding(w, id) {
        ForgetKeepsOrders(w.manager, w.replacements[id].stage.handle);
        RetainKeepsOrders(w.manager, w.replacements[id].stage.handle);
      }
    case StopSucceeds(which, noted) =>
      if which < |w.stopping| {
        AfterStopKeepsOrders(w.manager, w.stopping[which], noted);
      }
    case _ => assert Perform(w, step).manager.orders == w.manager.orders
        && Perform(w, step).manager.cleanup == w.manager.cleanup;
  }

  lemma {:induction false} RunKeepsOrders(w: World, steps: seq<Step>)
    requires OrdersAreSound(w.manager)
    ensures OrdersAreSound(After(w, steps).manager)
  {
    if steps != [] {
      RunKeepsOrders(w, steps[..|steps| - 1]);
      StepKeepsOrders(After(w, steps[..|steps| - 1]), steps[|steps| - 1]);
    }
  }

  // Versions.

  ghost predicate SameOwners(m: Manager, m': Manager) {
    m.active == m'.active && m.cleanup.Keys == m'.cleanup.Keys && m.pending.Keys == m'.pending.Keys
  }

  /** The version never falls, and rises whenever an owner comes or goes. */
  ghost predicate VersionTells(m: Manager, m': Manager) {
    m.version < m'.version || (m.version == m'.version && SameOwners(m, m'))
  }

  lemma {:induction false} StopStartedTells(m: Manager, handles: seq<Handle>, stops: seq<bool>)
    ensures VersionTells(m, StopStarted(m, handles, stops))
    decreases |handles|
  {
    if handles != [] {
      var last := |handles| - 1;
      var stopped := if last < |stops| && stops[last] then Dead(Forget(m, handles[last]), handles[last])
          else Retain(m, handles[last]);
      assert VersionTells(m, stopped);
      StopStartedTells(stopped, handles[..last], stops);
    }
  }

  lemma StartAllTells(m: Manager, employees: seq<EmployeeId>, results: seq<Option<Handle>>, persisted: nat,
                      stops: seq<bool>)
    requires |results| == |employees|
    ensures VersionTells(m, StartAll(m, employees, results, persisted, stops))
  {
    var handles := Started(results);
    var registered := Returned(RegisterAll(m, handles), set h | h in handles);
    RegisterAllOnlyRegisters(m, handles);
    StartedAreFew(results);
    if |handles| < |employees| {
      StopStartedTells(registered, handles, stops);
    } else if persisted < |employees| {
      var some := InstallAll(registered, employees[..persisted], handles[..persisted]);
      InstallAllInstalls(registered, employees[..persisted], handles[..persisted]);
      StopStartedTells(some, handles, stops);
    } else {
      InstallAllInstalls(registered, employees, handles[..|employees|]);
    }
  }

  lemma InstallTells(m: Manager, id: nat, e: EmployeeId, h: Handle)
    ensures VersionTells(m, Install(m, id, e, h))
  {
  }

  lemma AfterStopTells(m: Manager, c: Candidate, noted: bool)
    ensures VersionTells(m, AfterStop(m, c, noted))
  {
  }

  lemma StepTells(w: World, step: Step)
    ensures VersionTells(w.manager, Perform(w, step).manager)
  {
    match step
    case Collects(listed, candidates) => RegisterAllOnlyRegisters(w.manager, ActiveHandles(w.manager, listed));
    case StartsAll(employees, results, persisted, stops) =>
      if |results| == |employees| {
        StartAllTells(w.manager, employees, results, persisted, stops);
      }
    case Persists(id) =>
      if IsAccepted(w, id) {
        InstallTells(w.manager, id, w.replacements[id].employeeId, w.replacements[id].stage.handle);
      }
    case StopSucceeds(which, noted) => if which < |w.stopping| { AfterStopTells(w.manager, w.stopping[which], noted); }
    case _ =>
  }

  lemma {:induction false} RunTells(w: World, steps: seq<Step>)
    ensures VersionTells(w.manager, After(w, steps).manager)
  {
    if steps != [] {
      RunTells(w, steps[..|steps| - 1]);
      StepTells(After(w, steps[..|steps| - 1]), steps[|steps| - 1]);
    }
  }

  // The main results, for every run.

  /** However stops and persistence fail: a handle that an adapter returned is a
      session or kept for cleanup until it is stopped or superseded. */
  lemma LiveHandlesAreOwned(steps: seq<Step>, h: Handle)
    requires h in After(START, steps).manager.alive && h !in After(START, steps).manager.left
    ensures IsOwned(After(START, steps).manager, h)
  {
    RunKeepsLiveOwned(START, steps);
  }

  lemma CancelledReplacementsAreNeverInstalled(steps: seq<Step>, more: seq<Step>, id: nat)
    requires id in After(START, steps).manager.cancelled
    ensures id !in After(After(START, steps), more).manager.installed
  {
    RunKeepsFates(START, steps);
    RunKeepsFates(After(START, steps), more);
    assert FateIsKnown(After(After(START, steps), more), id);
  }

  /** A stop of all cancels every replacement that is pending. */
  lemma StopsCancelWhatIsPending(steps: seq<Step>, listed: seq<EmployeeId>, candidates: seq<Candidate>, id: nat)
    requires var w := After(START, steps);
             && id in w.manager.pending && Lists(w.manager, listed)
             && AreStopCandidates(RegisterAll(w.manager, ActiveHandles(w.manager, listed)), candidates)
    ensures id in Perform(After(START, steps), Collects(listed, candidates)).manager.cancelled
    ensures id in Perform(After(START, steps), Cancels).manager.cancelled
  {
    RegisterAllOnlyRegisters(After(START, steps).manager, ActiveHandles(After(START, steps).manager, listed));
  }

  /** Equal versions mean that nothing was owned, or given up, in between. */
  lemma EqualVersionsMeanNoChange(w: World, steps: seq<Step>, k: nat)
    requires k <= |steps| && After(w, steps).manager.version == w.manager.version
    ensures SameOwners(w.manager, After(w, steps[..k]).manager)
  {
    RunTells(w, steps[..k]);
    AfterTwo(w, steps[..k], steps[k..]);
    assert steps == steps[..k] + steps[k..];
    RunTells(After(w, steps[..k]), steps[k..]);
  }

  lemma EqualVersionsAlongAHistory(earlier: seq<Step>, later: seq<Step>, k: nat)
    requires earlier <= later && |earlier| <= k <= |later|
    requires After(START, earlier).manager.version == After(START, later).manager.version
    ensures SameOwners(After(START, earlier).manager, After(START, later[..k]).manager)
  {
    var more := later[|earlier|..];
    assert later == earlier + more && later[..k] == earlier + more[..k - |earlier|];
    AfterTwo(START, earlier, more);
    AfterTwo(START, earlier, more[..k - |earlier|]);
    EqualVersionsMeanNoChange(After(START, earlier), more, k - |earlier|);
  }

  lemma {:induction false} AfterTwo(w: World, steps: seq<Step>, more: seq<Step>)
    ensures After(w, steps + more) == After(After(w, steps), more)
    decreases |more|
  {
    if more == [] {
      assert steps + more == steps;
    } else {
      assert (steps + more)[..|steps + more| - 1] == steps + more[..|more| - 1];
      AfterTwo(w, steps, more[..|more| - 1]);
    }
  }

  predicate NothingIsOwned(m: Manager) {
    m.active == map[] && m.cleanup == map[] && m.pending == map[]
  }

  /** Without owners exactly the superseded handles are still alive. */
  lemma WithoutOwnersOnlyLeftLive(steps: seq<Step>)
    requires NothingIsOwned(After(START, steps).manager)
    ensures After(START, steps).manager.alive == After(START, steps).manager.left
  {
    RunKeepsLiveOwned(START, steps);
    var m := After(START, steps).manager;
    forall h | h in m.alive
      ensures h in m.left
    {
      assert !IsOwned(m, h);
    }
  }

  // Which handles are left alive.

  /** The step replaces the session `h` of an employee, without stopping it. */
  predicate Supersedes(w: World, step: Step, h: Handle) {
    && step.Persists? && IsAccepted(w, step.id)
    && var r := w.replacements[step.id];
       r.employeeId in w.manager.active && w.manager.active[r.employeeId] == h && r.stage.handle != h
  }

  /** A stop of `h` succeeds, or an adapter returns `h` (again). */
  predicate StopsOrReturns(w: World, step: Step, h: Handle) {
    match step
    case AdapterReturns(id, returned, _) => IsCreating(w, id) && returned == h
    case DiscardEnds(id, stopped) => IsDiscarding(w, id) && stopped && w.replacements[id].stage.handle == h
    case StopSucceeds(which, _) => which < |w.stopping| && w.stopping[which].handle == h
    case StartsAll(employees, results, _, _) =>
      |results| == |employees| && Distinct(employees) && w.manager.active == map[] && h in Started(results)
    case _ => false
  }

  lemma {:induction false} StopStartedKeepsLeft(m: Manager, handles: seq<Handle>, stops: seq<bool>)
    requires forall h :: h in handles ==> h !in m.left
    ensures StopStarted(m, handles, stops).left == m.left
    decreases |handles|
  {
    if handles != [] {
      var last := |handles| - 1;
      var stopped := if last < |stops| && stops[last] then Dead(Forget(m, handles[last]), handles[last])
          else Retain(m, handles[last]);
      assert stopped.left == m.left;
      StopStartedKeepsLeft(stopped, handles[..last], stops);
    }
  }

  lemma StartAllLeaves(m: Manager, employees: seq<EmployeeId>, results: seq<Option<Handle>>, persisted: nat,
                       stops: seq<bool>)
    requires |results| == |employees|
    ensures StartAll(m, employees, results, persisted, stops).left ==
            if m.active == map[] then m.left - (set h | h in Started(results)) else m.left
  {
    var handles := Started(results);
    var registered := Returned(RegisterAll(m, handles), set h | h in handles);
    RegisterAllOnlyRegisters(m, handles);
    StartedAreFew(results);
    if |handles| < |employees| {
      StopStartedKeepsLeft(registered, handles, stops);
    } else if persisted < |employees| {
      InstallAllInstalls(registered, employees[..persisted], handles[..persisted]);
      StopStartedKeepsLeft(InstallAll(registered, employees[..persisted], handles[..persisted]), handles, stops);
    } else {
      InstallAllInstalls(registered, employees, handles[..|employees|]);
    }
  }

  lemma StepDecidesLeft(w: World, step: Step, h: Handle)
    ensures h in Perform(w, step).manager.left <==>
            || (Supersedes(w, step, h) && h in w.manager.alive)
            || (h in w.manager.left && !StopsOrReturns(w, step, h))
  {
    match step
    case Collects(listed, candidates) => RegisterAllOnlyRegisters(w.manager, ActiveHandles(w.manager, listed));
    case StartsAll(employees, results, persisted, stops) =>
      if |results| == |employees| {
        StartAllLeaves(w.manager, employees, results, persisted, stops);
      }
    case _ =>
  }

  /** Step `k` superseded the living `h`, and since then it was neither stopped nor returned. */
  ghost predicate IsLeftSince(steps: seq<Step>, k: nat, h: Handle) {
    && k < |steps| && Supersedes(After(START, steps[..k]), steps[k], h) && h in After(START, steps[..k]).manager.alive
    && forall j :: k < j < |steps| ==> !StopsOrReturns(After(START, steps[..j]), steps[j], h)
  }

  lemma OneStepMore(before: seq<Step>, step: Step, k: nat, h: Handle)
    ensures IsLeftSince(before + [step], k, h) <==>
            || (k == |before| && Supersedes(After(START, before), step, h) && h in After(START, before).manager.alive)
            || (IsLeftSince(before, k, h) && !StopsOrReturns(After(START, before), step, h))
  {
    var steps := before + [step];
    assert steps[..|before|] == before && steps[|before|] == step;
    assert forall j :: 0 <= j < |before| ==> steps[..j] == before[..j] && steps[j] == before[j];
  }

  /** A handle is left alive exactly since a replacement superseded it that no stop
      and no further return has followed. */
  lemma {:induction false} LeftAliveExactly(steps: seq<Step>, h: Handle)
    ensures h in After(START, steps).manager.left <==> exists k: nat :: IsLeftSince(steps, k, h)
  {
    if steps != [] {
      var last := |steps| - 1;
      var before := steps[..last];
      assert steps == before + [steps[last]];
      LeftAliveExactly(before, h);
      StepDecidesLeft(After(START, before), steps[last], h);
      OneStepMore(before, steps[last], last, h);
      if k: nat :| IsLeftSince(before, k, h) {
        OneStepMore(before, steps[last], k, h);
      }
      if k: nat :| IsLeftSince(steps, k, h) {
        OneStepMore(before, steps[last], k, h);
      }
    }
  }

  // A run that ends with nothing owned and an agent alive.

  /** An employee is started and rebuilt, and then everything is stopped. */
  function RebuildAndStop(e: EmployeeId, first: Handle, second: Handle): seq<Step> {
    [StartsAll([e], [Some(first)], 1, []), Begins(e), AdapterReturns(0, second, false), Persists(0),
     Collects([e], [Candidate(second, e, true, 2)]), StopSucceeds(0, true)]
  }

  function StartedOne(e: EmployeeId, h: Handle): Manager {
    Manager(map[e := h], map[], map[h := 1], map[], 1, 1, 0, {h}, {}, {}, {})
  }

  lemma OneStarts(e: EmployeeId, h: Handle)
    ensures StartAll(INITIAL, [e], [Some(h)], 1, []) == StartedOne(e, h)
  {
    var handles, results := [h], [Some(h)];
    assert results[1..] == [] && Started(results) == handles;
    var registered := Returned(Register(INITIAL, h), {h});
    assert RegisterAll(INITIAL, handles) == Register(INITIAL, h);
    assert Returned(RegisterAll(INITIAL, Started(results)), set g | g in Started(results)) == registered;
    assert [e][..0] == [] && handles[..0] == [] && handles[..1] == handles;
    assert StartAll(INITIAL, [e], results, 1, []) == InstallAll(registered, [e], handles);
    assert InstallAll(registered, [], []) == registered;
    assert InstallAll(registered, [e], handles) == registered.(active := map[e := h], version := 1);
  }

  lemma Then(steps: seq<Step>, step: Step)
    ensures After(START, steps + [step]) == Perform(After(START, steps), step)
  {
    assert (steps + [step])[..|steps|] == steps;
  }

  lemma AfterFour(steps: seq<Step>)
    requires |steps| == 4
    ensures After(START, steps) == Perform(Perform(Perform(Perform(START, steps[0]), steps[1]), steps[2]), steps[3])
  {
    assert steps[..0] + [steps[0]] == steps[..1] && steps[..1] + [steps[1]] == steps[..2];
    assert steps[..2] + [steps[2]] == steps[..3] && steps[..3] + [steps[3]] == steps;
    Then(steps[..0], steps[0]);
    Then(steps[..1], steps[1]);
    Then(steps[..2], steps[2]);
    Then(steps[..3], steps[3]);
  }

  /** The second session was returned, and is kept for cleanup until it is persisted. */
  function ReturnedOne(e: EmployeeId, first: Handle, second: Handle): World {
    World(Manager(map[e := first], map[second := 2], map[first := 1, second := 2], map[], 2, 4, 1, {first, second},
        {}, {}, {}),
          map[0 := Replacement(e, Accepted(second))], [])
  }

  /** The first session was superseded by the second. */
  function RebuiltOne(e: EmployeeId, first: Handle, second: Handle): Manager {
    Manager(map[e := second], map[], map[second := 2], map[], 2, 6, 1, {first, second}, {first}, {}, {0})
  }

  function StoppedOne(first: Handle): Manager {
    Manager(map[], map[], map[], map[], 2, 7, 1, {first}, {first}, {}, {0})
  }

  lemma OneReturns(e: EmployeeId, first: Handle, second: Handle)
    requires first != second
    ensures var steps := RebuildAndStop(e, first, second);
            Perform(Perform(World(StartedOne(e, first), map[], []), steps[1]), steps[2]) ==
                ReturnedOne(e, first, second)
  {
    var steps := RebuildAndStop(e, first, second);
    var w := Perform(World(StartedOne(e, first), map[], []), steps[1]);
    assert w.replacements == map[0 := Replacement(e, Creating)];
    var returned := Perform(w, steps[2]);
    assert returned.replacements == ReturnedOne(e, first, second).replacements;
    assert returned.manager.pending == map[];
    assert returned.manager == ReturnedOne(e, first, second).manager;
  }

  lemma OnePersists(e: EmployeeId, first: Handle, second: Handle)
    requires first != second
    ensures Perform(ReturnedOne(e, first, second), Persists(0)) == World(RebuiltOne(e, first, second), map[], [])
  {
    var w := Perform(ReturnedOne(e, first, second), Persists(0));
    assert w.replacements == map[];
    assert w.manager.orders == map[second := 2] && w.manager.cleanup == map[];
    assert w.manager == RebuiltOne(e, first, second);
  }

  lemma OneIsRebuilt(e: EmployeeId, first: Handle, second: Handle)
    requires first != second
    ensures After(START, RebuildAndStop(e, first, second)[..4]) == World(RebuiltOne(e, first, second), map[], [])
  {
    var steps := RebuildAndStop(e, first, second);
    AfterFour(steps[..4]);
    OneStarts(e, first);
    OneReturns(e, first, second);
    OnePersists(e, first, second);
  }

  lemma OneIsCollected(e: EmployeeId, first: Handle, second: Handle)
    requires first != second
    ensures var steps := RebuildAndStop(e, first, second);
            Perform(World(RebuiltOne(e, first, second), map[], []), steps[4]) ==
            World(RebuiltOne(e, first, second), map[], [Candidate(second, e, true, 2)])
  {
    var m, c := RebuiltOne(e, first, second), Candidate(second, e, true, 2);
    assert m.active[e] == second;
    assert [e][1..] == [] && ActiveHandles(m, [e]) == [second];
    assert RegisterAll(m, [second]) == m;
    assert [c][0].handle == second;
    assert forall h :: IsOwned(m, h) ==> h == second;
    assert AreStopCandidates(m, [c]);
    assert CancelPending(m) == m;
  }

  lemma OneIsStopped(e: EmployeeId, first: Handle, second: Handle)
    requires first != second
    ensures AfterStop(RebuiltOne(e, first, second), Candidate(second, e, true, 2), true) == StoppedOne(first)
  {
    var m := AfterStop(RebuiltOne(e, first, second), Candidate(second, e, true, 2), true);
    assert m.active == map[] && m.orders == map[] && m.alive == {first};
  }

  /** No step stops the first session; nothing is owned in the end, and it is alive. */
  lemma ReplacedSessionIsLeftAlive(e: EmployeeId, first: Handle, second: Handle)
    requires first != second
    ensures var m := After(START, RebuildAndStop(e, first, second)).manager;
            NothingIsOwned(m) && m.alive == {first} && m.version == 7
    ensures var steps := RebuildAndStop(e, first, second);
            forall k :: 0 < k < |steps| ==> !StopsOrReturns(After(START, steps[..k]), steps[k], first)
  {
    var steps := RebuildAndStop(e, first, second);
    OneIsRebuilt(e, first, second);
    OneIsCollected(e, first, second);
    OneIsStopped(e, first, second);
    Then(steps[..4], steps[4]);
    Then(steps[..5], steps[5]);
    assert steps[..4] + [steps[4]] == steps[..5] && steps[..5] + [steps[5]] == steps;
    assert After(START, steps[..5]).stopping[0].handle == second;
  }

  // What stops release.

  ghost predicate SessionsDiffer(m: Manager) {
    forall e, f :: e in m.active && f in m.active && m.active[e] == m.active[f] ==> e == f
  }

  /** The candidate is still what it was collected as. */
  ghost predicate StillStands(m: Manager, c: Candidate) {
    if c.active then c.employeeId in m.active && m.active[c.employeeId] == c.handle else !IsActive(m, c.handle)
  }

  /** A successful stop releases its handle and no other, exactly unless it ended a
      session and the store could not note that. */
  lemma StopReleasesExactly(m: Manager, c: Candidate, noted: bool, h: Handle)
    requires SessionsDiffer(m) && StillStands(m, c)
    ensures var m' := AfterStop(m, c, noted);
            && SessionsDiffer(m')
            && (IsOwned(m', h) <==> IsOwned(m, h) && (h != c.handle || (c.active && !noted)))
            && (h in m'.alive <==> h in m.alive && h != c.handle)
  {
    var m' := AfterStop(m, c, noted);
    if e :| e in m.active && m.active[e] == h {
      assert h != c.handle ==> e in m'.active && m'.active[e] == h;
    }
    if h == c.handle && IsActive(m', h) {
      var e :| e in m'.active && m'.active[e] == h;
      assert e in m.active && m.active[e] == h;
      assert c.active && !noted;
    }
  }

  /** A stop leaves the sessions alone that have other handles, even one that is the
      session of the same employee by now. */
  lemma StopLeavesOtherSessions(m: Manager, c: Candidate, noted: bool, e: EmployeeId)
    requires e in m.active && m.active[e] != c.handle
    ensures var m' := AfterStop(m, c, noted); e in m'.active && m'.active[e] == m.active[e]
  {
  }

  /** The candidates that were collected last, from the `from`-th on, are stopped and noted in turn. */
  function StopsFrom(from: nat, count: nat): seq<Step> {
    seq(count, k requires 0 <= k < count => StopSucceeds(from + k, true))
  }

  /** What is owned is still to be stopped, and is what it was collected as. */
  ghost predicate OnlyOwns(m: Manager, candidates: seq<Candidate>, stopped: nat) {
    && m.pending == map[] && SessionsDiffer(m)
    && (forall i :: stopped <= i < |candidates| ==> StillStands(m, candidates[i]))
    && forall h :: IsOwned(m, h) ==> exists i :: stopped <= i < |candidates| && candidates[i].handle == h
  }

  lemma OneMoreIsStopped(m: Manager, candidates: seq<Candidate>, stopped: nat)
    requires stopped < |candidates| && OnlyOwns(m, candidates, stopped)
    requires forall i, j :: 0 <= i < j < |candidates| ==> candidates[i].handle != candidates[j].handle
    ensures OnlyOwns(AfterStop(m, candidates[stopped], true), candidates, stopped + 1)
  {
    var c := candidates[stopped];
    var m' := AfterStop(m, c, true);
    assert StillStands(m, c);
    forall h | IsOwned(m', h)
      ensures exists i :: stopped + 1 <= i < |candidates| && candidates[i].handle == h
    {
      StopReleasesExactly(m, c, true, h);
      var i :| stopped <= i < |candidates| && candidates[i].handle == h;
      assert i != stopped;
    }
    StopReleasesExactly(m, c, true, c.handle);
    forall i | stopped + 1 <= i < |candidates|
      ensures StillStands(m', candidates[i])
    {
      assert StillStands(m, candidates[i]) && candidates[i].handle != c.handle;
      if candidates[i].active {
        StopLeavesOtherSessions(m, c, true, candidates[i].employeeId);
      }
    }
  }

  lemma {:induction false} AllAreStopped(w: World, candidates: seq<Candidate>, from: nat, count: nat)
    requires from <= |w.stopping| && w.stopping[..from] + candidates == w.stopping && count <= |candidates|
    requires OnlyOwns(w.manager, candidates, 0)
    requires forall i, j :: 0 <= i < j < |candidates| ==> candidates[i].handle != candidates[j].handle
    ensures var w' := After(w, StopsFrom(from, count));
            w'.stopping == w.stopping && OnlyOwns(w'.manager, candidates, count)
  {
    if count > 0 {
      var steps := StopsFrom(from, count);
      assert steps[..count - 1] == StopsFrom(from, count - 1);
      AllAreStopped(w, candidates, from, count - 1);
      var before := After(w, StopsFrom(from, count - 1));
      assert before.stopping[from + count - 1] == candidates[count - 1];
      OneMoreIsStopped(before.manager, candidates, count - 1);
    }
  }

  lemma CollectedAreAll(m: Manager, candidates: seq<Candidate>)
    requires m.pending == map[] && SessionsDiffer(m) && AreStopCandidates(m, candidates)
    ensures OnlyOwns(CancelPending(m), candidates, 0)
    ensures forall i, j :: 0 <= i < j < |candidates| ==> candidates[i].handle != candidates[j].handle
  {
    var m' := CancelPending(m);
    forall i | 0 <= i < |candidates|
      ensures StillStands(m', candidates[i])
    {
      assert candidates[i] in candidates && IsCandidate(m, candidates[i]);
    }
    forall h | IsOwned(m', h)
      ensures exists i :: 0 <= i < |candidates| && candidates[i].handle == h
    {
      assert IsOwned(m, h) && IsAmong(candidates, h);
    }
    forall i, j | 0 <= i < j < |candidates|
      ensures candidates[i].handle != candidates[j].handle
    {
      assert IsCandidate(m, candidates[i]) && IsCandidate(m, candidates[j]);
    }
  }

  /** If no replacement is pending and the employees have different sessions, then
      stopping all that is collected, each stop successful and noted, leaves nothing
      owned, and alive only what was superseded. */
  lemma StoppingAllReleasesAll(steps: seq<Step>, listed: seq<EmployeeId>, candidates: seq<Candidate>)
    requires var m := After(START, steps).manager;
             && m.pending == map[] && SessionsDiffer(m)
             && Lists(m, listed) && AreStopCandidates(RegisterAll(m, ActiveHandles(m, listed)), candidates)
    ensures var w := After(START, steps + [Collects(listed, candidates)]
                                  + StopsFrom(|After(START, steps).stopping|, |candidates|));
            NothingIsOwned(w.manager) && w.manager.alive == w.manager.left
  {
    var w := After(START, steps);
    var all := steps + [Collects(listed, candidates)];
    var from := |w.stopping|;
    var collected := After(START, all);
    Then(steps, Collects(listed, candidates));
    var m, registered := w.manager, RegisterAll(w.manager, ActiveHandles(w.manager, listed));
    RegisterAllOnlyRegisters(m, ActiveHandles(m, listed));
    CollectedAreAll(registered, candidates);
    AllAreStopped(collected, candidates, from, |candidates|);
    AfterTwo(START, all, StopsFrom(from, |candidates|));
    var last := After(collected, StopsFrom(from, |candidates|)).manager;
    assert forall e :: e in last.active ==> IsOwned(last, last.active[e]);
    assert forall h :: h in last.cleanup ==> IsOwned(last, h);
    WithoutOwnersOnlyLeftLive(all + StopsFrom(from, |candidates|));
  }
}
