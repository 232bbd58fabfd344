/**
 The session manager with its maps updated in place. Each method is what one of
 the source's functions does in one stretch.
 */
module SessionManagement {
  import opened SessionOwnership
  import opened Wrappers

  datatype OwnerKind = ActiveSession | KeptForCleanup | PendingReplacement

  datatype Owner = Owner(employeeId: EmployeeId, kind: OwnerKind)

  /** A stop that was begun, and what the clock showed just before. */
  datatype BegunStop = BegunStop(candidate: Candidate, at: int)

  /** The owner stands for a session, a handle kept for cleanup, or a pending replacement. */
  ghost predicate StandsForSomething(m: Manager, o: Owner) {
    match o.kind
    case ActiveSession => o.employeeId in m.active
    case KeptForCleanup => exists h :: h in m.cleanup && !IsActive(m, h) && h.employeeId == o.employeeId
    case PendingReplacement => exists id :: id in m.pending && m.pending[id].employeeId == o.employeeId
  }

  ghost predicate ShowsSession(m: Manager, owners: seq<Owner>, h: Handle) {
    exists e :: e in m.active && m.active[e] == h && Owner(e, ActiveSession) in owners
  }

  /** Every handle is shown once as what it is, and every pending replacement is shown. */
  ghost predicate ShowsAllOwned(m: Manager, owners: seq<Owner>) {
    && (forall h :: IsActive(m, h) ==> ShowsSession(m, owners, h))
    && (forall h :: h in m.cleanup && !IsActive(m, h) ==> Owner(h.employeeId, KeptForCleanup) in owners)
    && (forall id :: id in m.pending ==> Owner(m.pending[id].employeeId, PendingReplacement) in owners)
  }

  lemma ShownStays(m: Manager, shown: seq<Owner>, owners: seq<Owner>)
    requires forall o :: o in shown ==> o in owners
    ensures forall h :: ShowsSession(m, shown, h) ==> ShowsSession(m, owners, h)
  {
  }

  lemma EmptySnapshot(m: Manager, owners: seq<Owner>)
    requires ShowsAllOwned(m, owners) && forall o :: o in owners ==> StandsForSomething(m, o)
    ensures owners == [] <==> NothingIsOwned(m)
  {
    if owners == [] {
      assert forall e :: e in m.active ==> IsActive(m, m.active[e]);
      assert m.active == map[];
      assert m.cleanup == map[];
      assert m.pending == map[];
    } else {
      assert StandsForSomething(m, owners[0]);
    }
  }

  lemma {:induction false} RegisterAllOfTwo(m: Manager, a: seq<Handle>, b: seq<Handle>)
    ensures RegisterAll(m, a + b) == RegisterAll(RegisterAll(m, a), b)
    decreases |a|
  {
    if a == [] {
      assert a + b == b;
    } else {
      assert (a + b)[1..] == a[1..] + b;
      RegisterAllOfTwo(Register(m, a[0]), a[1..], b);
    }
  }

  lemma {:induction false} ActiveHandlesOfTwo(m: Manager, a: seq<EmployeeId>, b: seq<EmployeeId>)
    ensures ActiveHandles(m, a + b) == ActiveHandles(m, a) + ActiveHandles(m, b)
  {
    if a == [] {
      assert a + b == b;
    } else {
      assert (a + b)[1..] == a[1..] + b;
      ActiveHandlesOfTwo(m, a[1..], b);
    }
  }

  lemma RegisterOneMore(m: Manager, listed: seq<EmployeeId>, e: EmployeeId)
    requires e in m.active
    ensures RegisterAll(m, ActiveHandles(m, listed + [e])) ==
              Register(RegisterAll(m, ActiveHandles(m, listed)), m.active[e])
  {
    ActiveHandlesOfTwo(m, listed, [e]);
    assert ActiveHandles(m, [e]) == [m.active[e]];
    RegisterAllOfTwo(m, ActiveHandles(m, listed), [m.active[e]]);
    var r := RegisterAll(m, ActiveHandles(m, listed));
    assert RegisterAll(r, [m.active[e]]) == RegisterAll(Register(r, m.active[e]), []);
  }

  lemma RegisterKeepsOrders(m: Manager, h: Handle)
    requires OrdersAreSound(m)
    ensures OrdersAreSound(Register(m, h))
  {
  }

  lemma InsertedIsDescending(sorted: seq<Candidate>, c: Candidate, at: nat)
    requires AreDescending(sorted) && at <= |sorted|
    requires forall i :: 0 <= i < |sorted| ==> if i < at then sorted[i].order > c.order else sorted[i].order < c.order
    ensures AreDescending(sorted[..at] + [c] + sorted[at..])
  {
    var r := sorted[..at] + [c] + sorted[at..];
    forall i, j | 0 <= i < j < |r|
      ensures r[i].order > r[j].order
    {
      assert r[i] == if i < at then sorted[i] else if i == at then c else sorted[i - 1];
      assert r[j] == if j < at then sorted[j] else if j == at then c else sorted[j - 1];
    }
  }

  lemma InsertedIsIn(sorted: seq<Candidate>, c: Candidate, at: nat)
    requires at <= |sorted|
    ensures forall d :: d in sorted[..at] + [c] + sorted[at..] <==> d in sorted || d == c
  {
    assert sorted == sorted[..at] + sorted[at..];
  }

  /** Inserts into a list that is sorted by descending order. */
  method Insert(sorted: seq<Candidate>, c: Candidate) returns (r: seq<Candidate>)
    requires AreDescending(sorted) && forall i :: 0 <= i < |sorted| ==> sorted[i].order != c.order
    ensures AreDescending(r) && |r| == |sorted| + 1
    ensures forall d :: d in r <==> d in sorted || d == c
  {
    var at := 0;
    while at < |sorted| && sorted[at].order > c.order
      invariant 0 <= at <= |sorted|
      invariant forall i :: 0 <= i < at ==> sorted[i].order > c.order
    {
      at := at + 1;
    }
    r := sorted[..at] + [c] + sorted[at..];
    assert forall i :: at < i < |sorted| ==> sorted[at].order > sorted[i].order;
    InsertedIsDescending(sorted, c, at);
    InsertedIsIn(sorted, c, at);
  }

  method SortedByOrder(candidates: map<Handle, Candidate>) returns (sorted: seq<Candidate>)
    requires forall g, h :: g in candidates && h in candidates && candidates[g].order == candidates[h].order ==> g == h
    ensures AreDescending(sorted)
    ensures forall c :: c in sorted <==> c in candidates.Values
  {
    sorted := [];
    var rest := candidates.Keys;
    while rest != {}
      invariant rest <= candidates.Keys && AreDescending(sorted)
      invariant forall c :: c in sorted <==> exists h :: h in candidates && h !in rest && candidates[h] == c
      decreases |rest|
    {
      var h :| h in rest;
      forall i | 0 <= i < |sorted|
        ensures sorted[i].order != candidates[h].order
      {
        assert sorted[i] in sorted;
      }
      sorted := Insert(sorted, candidates[h]);
      rest := rest - {h};
    }
  }

  class SessionManager {
    var sessions: map<EmployeeId, Handle>
    var cleanupHandles: map<Handle, nat>
    var handleOrders: map<Handle, nat>
    var pendingReplacements: map<nat, Pending>
    var nextHandleOrder: nat
    var ownershipVersion: nat
    var nextReplacement: nat
    ghost var alive: set<Handle>
    ghost var left: set<Handle>
    ghost var cancelled: set<nat>
    ghost var installed: set<nat>

    ghost function State(): Manager
      reads this
    {
      Manager(sessions, cleanupHandles, handleOrders, pendingReplacements, nextHandleOrder, ownershipVersion,
              nextReplacement, alive, left, cancelled, installed)
    }

    constructor ()
      ensures State() == INITIAL
    {
      sessions, cleanupHandles, handleOrders, pendingReplacements := map[], map[], map[], map[];
      nextHandleOrder, ownershipVersion, nextReplacement := 0, 0, 0;
      alive, left, cancelled, installed := {}, {}, {}, {};
    }

    method RegisterHandle(handle: Handle) returns (order: nat)
      modifies this`handleOrders, this`nextHandleOrder
      ensures State() == Register(old(State()), handle)
      ensures order == handleOrders[handle]
    {
      if handle in handleOrders {
        return handleOrders[handle];
      }
      nextHandleOrder := nextHandleOrder + 1;
      handleOrders := handleOrders[handle := nextHandleOrder];
      return nextHandleOrder;
    }

    method RetainForCleanup(handle: Handle)
      modifies this
      ensures State() == Retain(old(State()), handle)
    {
      var order := RegisterHandle(handle);
      cleanupHandles := cleanupHandles[handle := order];
      ownershipVersion := ownershipVersion + 1;
    }

    method RemoveCleanupHandle(handle: Handle)
      modifies this`cleanupHandles, this`ownershipVersion
      ensures State() == RemoveCleanup(old(State()), handle)
    {
      if handle in cleanupHandles {
        ownershipVersion := ownershipVersion + 1;
      }
      cleanupHandles := cleanupHandles - {handle};
    }

    method ForgetHandle(handle: Handle)
      modifies this`cleanupHandles, this`ownershipVersion, this`handleOrders
      ensures State() == Forget(old(State()), handle)
    {
      RemoveCleanupHandle(handle);
      handleOrders := handleOrders - {handle};
    }

    method BeginReplacement(employeeId: EmployeeId) returns (id: nat)
      modifies this
      ensures State() == SessionOwnership.BeginReplacement(old(State()), employeeId) && id == old(nextReplacement)
    {
      id := nextReplacement;
      nextReplacement := nextReplacement + 1;
      pendingReplacements := pendingReplacements[id := Pending(employeeId, false)];
      ownershipVersion := ownershipVersion + 1;
    }

    method FinishReplacement(id: nat)
      modifies this`pendingReplacements, this`ownershipVersion
      ensures State() == SessionOwnership.FinishReplacement(old(State()), id)
    {
      if id in pendingReplacements {
        ownershipVersion := ownershipVersion + 1;
      }
      pendingReplacements := pendingReplacements - {id};
    }

    /** The end of `#persistReplacement` after the store accepted the session. */
    method InstallReplacement(id: nat, employeeId: EmployeeId, handle: Handle)
      modifies this
      ensures State() == Install(old(State()), id, employeeId, handle)
    {
      var previous := if employeeId in sessions then Some(sessions[employeeId]) else None;
      sessions := sessions[employeeId := handle];
      ownershipVersion := ownershipVersion + 1;
      installed := installed + {id};
      RemoveCleanupHandle(handle);
      if previous.Some? && previous.value != handle {
        ForgetHandle(previous.value);
        left := if previous.value in alive then left + {previous.value} else left;
      }
    }

    /** The bookkeeping after an adapter stop that succeeded. */
    method FinishStop(c: Candidate, noted: bool)
      modifies this
      ensures State() == AfterStop(old(State()), c, noted)
    {
      alive, left := alive - {c.handle}, left - {c.handle};
      if c.active {
        if !noted {
          return;
        }
        if c.employeeId in sessions && sessions[c.employeeId] == c.handle {
          sessions := sessions - {c.employeeId};
          ownershipVersion := ownershipVersion + 1;
        }
      }
      ForgetHandle(c.handle);
    }

    method CancelPendingReplacements()
      modifies this`pendingReplacements, this`cancelled
      ensures State() == CancelPending(old(State()))
    {
      var rest := pendingReplacements.Keys;
      while rest != {}
        invariant rest <= old(pendingReplacements).Keys && pendingReplacements.Keys == old(pendingReplacements).Keys
        invariant cancelled == old(cancelled)
        invariant forall id :: id in pendingReplacements ==>
                    pendingReplacements[id] == if id in rest then old(pendingReplacements)[id]
                        else old(pendingReplacements)[id].(cancelled := true)
        decreases |rest|
      {
        var id :| id in rest;
        pendingReplacements := pendingReplacements[id := pendingReplacements[id].(cancelled := true)];
        rest := rest - {id};
      }
      cancelled := cancelled + pendingReplacements.Keys;
    }

    predicate IsSessionOf(c: Candidate, h: Handle)
      reads this
    {
      && c.handle == h && c.active && h in handleOrders && c.order == handleOrders[h]
      && c.employeeId in sessions && sessions[c.employeeId] == h
    }

    /** The sessions among the candidates; their handles get an order if they have none. */
    method CollectSessions() returns (candidates: map<Handle, Candidate>, ghost listed: seq<EmployeeId>)
      requires OrdersAreSound(State())
      modifies this`handleOrders, this`nextHandleOrder
      ensures Lists(old(State()), listed) && State() == RegisterAll(old(State()), ActiveHandles(old(State()), listed))
      ensures OrdersAreSound(State())
      ensures forall h :: h in candidates <==> IsActive(State(), h)
      ensures forall h :: h in candidates ==> IsSessionOf(candidates[h], h)
    {
      candidates, listed := map[], [];
      var rest := sessions.Keys;
      while rest != {}
        invariant rest <= sessions.Keys && sessions == old(sessions)
        invariant forall e :: e in listed <==> e in sessions && e !in rest
        invariant State() == RegisterAll(old(State()), ActiveHandles(old(State()), listed)) && OrdersAreSound(State())
        invariant forall e :: e in sessions && e !in rest ==> sessions[e] in candidates
        invariant forall h :: h in candidates ==> IsSessionOf(candidates[h], h)
        decreases |rest|
      {
        var e :| e in rest;
        RegisterOneMore(old(State()), listed, e);
        RegisterKeepsOrders(State(), sessions[e]);
        var order := RegisterHandle(sessions[e]);
        candidates := candidates[sessions[e] := Candidate(sessions[e], e, true, order)];
        rest := rest - {e};
        listed := listed + [e];
      }
    }

    method CollectStopCandidates() returns (sorted: seq<Candidate>, ghost listed: seq<EmployeeId>)
      requires OrdersAreSound(State())
      modifies this`handleOrders, this`nextHandleOrder
      ensures Lists(old(State()), listed) && State() == RegisterAll(old(State()), ActiveHandles(old(State()), listed))
      ensures AreStopCandidates(State(), sorted)
    {
      var candidates;
      candidates, listed := CollectSessions();
      var rest := cleanupHandles.Keys;
      while rest != {}
        invariant rest <= cleanupHandles.Keys
        invariant forall h :: h in candidates <==> IsActive(State(), h) || (h in cleanupHandles && h !in rest)
        invariant forall h :: h in candidates ==> candidates[h].handle == h && IsCandidate(State(), candidates[h])
        decreases |rest|
      {
        var h :| h in rest;
        if h !in candidates {
          candidates := candidates[h := Candidate(h, h.employeeId, false, cleanupHandles[h])];
        }
        rest := rest - {h};
      }
      sorted := SortedByOrder(candidates);
      forall h | IsOwned(State(), h)
        ensures IsAmong(sorted, h)
      {
        assert candidates[h] in candidates.Values;
        var i :| 0 <= i < |sorted| && sorted[i] == candidates[h];
      }
    }

    /** `stopAllBounded` up to its awaits: the first stops are begun, the others
        aborted. Every reading of the clock is at least the one before. */
    method BeginStops(aborted: bool, deadlineAt: int, clock: nat -> int)
      returns (candidates: seq<Candidate>, begun: seq<BegunStop>, ghost listed: seq<EmployeeId>)
      requires OrdersAreSound(State())
      requires forall i, j :: 0 <= i <= j ==> clock(i) <= clock(j)
      modifies this`handleOrders, this`nextHandleOrder, this`pendingReplacements, this`cancelled
      ensures Lists(old(State()), listed)
      ensures State() == CancelPending(RegisterAll(old(State()), ActiveHandles(old(State()), listed)))
      ensures AreStopCandidates(State(), candidates)
      ensures forall b :: b in begun ==> !aborted && b.at < deadlineAt
      ensures |begun| <= |candidates| && forall i :: 0 <= i < |begun| ==> begun[i].candidate == candidates[i]
      ensures |begun| < |candidates| ==> aborted || deadlineAt <= clock(2 * |candidates|)
    {
      candidates, listed := CollectStopCandidates();
      ghost var collected := State();
      CancelPendingReplacements();
      assert forall h :: IsActive(State(), h) == IsActive(collected, h);
      begun := [];
      var tick, late := 0, false;
      for i := 0 to |candidates|
        invariant 0 <= tick <= 2 * i
        invariant late ==> aborted || deadlineAt <= clock(tick)
        invariant !late ==> |begun| == i
        invariant |begun| <= i && forall k :: 0 <= k < |begun| ==> begun[k].candidate == candidates[k]
        invariant forall b :: b in begun ==> !aborted && b.at < deadlineAt
      {
        if aborted || clock(tick) >= deadlineAt {
          late := true;
          continue;
        }
        tick := tick + 1;
        if aborted || clock(tick) >= deadlineAt {
          late := true;
          continue;
        }
        begun := begun + [BegunStop(candidates[i], clock(tick))];
        tick := tick + 1;
      }
    }

    /** The sessions among the owners, one a handle. */
    method SessionOwners() returns (owners: seq<Owner>, seen: set<Handle>)
      ensures forall h :: h in seen <==> IsActive(State(), h)
      ensures forall h :: h in seen ==> ShowsSession(State(), owners, h)
      ensures forall o :: o in owners ==> StandsForSomething(State(), o)
    {
      owners, seen := [], {};
      var active := sessions.Keys;
      while active != {}
        invariant active <= sessions.Keys
        invariant forall e :: e in sessions && e !in active ==> sessions[e] in seen
        invariant forall h :: h in seen ==> IsActive(State(), h) && ShowsSession(State(), owners, h)
        invariant forall o :: o in owners ==> StandsForSomething(State(), o)
        decreases |active|
      {
        var e :| e in active;
        if sessions[e] !in seen {
          ShownStays(State(), owners, owners + [Owner(e, ActiveSession)]);
          owners := owners + [Owner(e, ActiveSession)];
        }
        seen := seen + {sessions[e]};
        active := active - {e};
      }
    }

    /** The handles kept for cleanup that are no session. */
    method CleanupOwners(seen: set<Handle>) returns (owners: seq<Owner>)
      requires forall h :: h in seen <==> IsActive(State(), h)
      ensures forall h :: h in cleanupHandles && h !in seen ==> Owner(h.employeeId, KeptForCleanup) in owners
      ensures forall o :: o in owners ==> StandsForSomething(State(), o)
    {
      owners := [];
      var cleanup := cleanupHandles.Keys;
      while cleanup != {}
        invariant cleanup <= cleanupHandles.Keys
        invariant forall h :: h in cleanupHandles && h !in cleanup && h !in seen ==>
                    Owner(h.employeeId, KeptForCleanup) in owners
        invariant forall o :: o in owners ==> StandsForSomething(State(), o)
        decreases |cleanup|
      {
        var h :| h in cleanup;
        if h !in seen {
          owners := owners + [Owner(h.employeeId, KeptForCleanup)];
        }
        cleanup := cleanup - {h};
      }
    }

    method PendingOwners() returns (owners: seq<Owner>)
      ensures forall id :: id in pendingReplacements ==>
                Owner(pendingReplacements[id].employeeId, PendingReplacement) in owners
      ensures forall o :: o in owners ==> StandsForSomething(State(), o)
    {
      owners := [];
      var pending := pendingReplacements.Keys;
      while pending != {}
        invariant pending <= pendingReplacements.Keys
        invariant forall id :: id in pendingReplacements && id !in pending ==>
                    Owner(pendingReplacements[id].employeeId, PendingReplacement) in owners
        invariant forall o :: o in owners ==> StandsForSomething(State(), o)
        decreases |pending|
      {
        var id :| id in pending;
        owners := owners + [Owner(pendingReplacements[id].employeeId, PendingReplacement)];
        pending := pending - {id};
      }
    }

    /** The owners that the cleanup loop sees. */
    method CleanupOwnershipSnapshot() returns (version: nat, owners: seq<Owner>)
      ensures version == ownershipVersion
      ensures ShowsAllOwned(State(), owners) && forall o :: o in owners ==> StandsForSomething(State(), o)
      ensures owners == [] <==> NothingIsOwned(State())
    {
      version := ownershipVersion;
      var active, seen := SessionOwners();
      var cleanup := CleanupOwners(seen);
      var pending := PendingOwners();
      owners := active + cleanup + pending;
      ShownStays(State(), active, active + cleanup);
      ShownStays(State(), active + cleanup, owners);
      EmptySnapshot(State(), owners);
    }
  }
}
